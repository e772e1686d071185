/** What holds of the bandwidth sampler on every run. */
module SamplerProofs {
  import opened Common
  import opened AckHeights
  import opened SamplerModel

  // ---------- Choosing A0 ----------

  ghost predicate Sorted(c: seq<AckPoint>) {
    forall i, j :: 0 <= i <= j < |c| ==> c[i].bytes <= c[j].bytes
  }

  /** Position j holds the latest candidate that does not exceed the target or, if all exceed it, the oldest one. */
  ghost predicate IsLatestBelow(c: seq<AckPoint>, target: nat, j: int) {
    && 0 <= j < |c|
    && (forall k :: j < k < |c| ==> c[k].bytes > target)
    && (j == 0 || c[j].bytes <= target)
  }

  lemma ChoiceIsLatestBelow(c: seq<AckPoint>, target: nat)
    requires c != [] && Sorted(c)
    ensures IsLatestBelow(c, target, FirstAbove(c, 1, target) - 1)
  {
  }

  lemma LatestBelowIsUnique(c: seq<AckPoint>, target: nat, i: int, j: int)
    requires IsLatestBelow(c, target, i) && IsLatestBelow(c, target, j)
    ensures i == j
  {
  }

  /** Pruning drops a prefix that ends before the chosen point. */
  lemma PrunedIsSuffix(c: seq<AckPoint>, target: nat) returns (dropped: nat)
    requires c != []
    ensures dropped <= FirstAbove(c, 1, target) - 1 < |c| && PrunedA0(c, target) == c[dropped..]
  {
    var i := FirstAbove(c, 1, target);
    dropped := if i < |c| then i - 1 else |c| / 2;
    hide FirstAbove;
  }

  /** Dropping a prefix that ends before a point not above the target does not change the choice. */
  lemma DroppingIsHarmless(c: seq<AckPoint>, dropped: nat, first: nat, target: nat)
    requires Sorted(c) && dropped <= first < |c| && (first == 0 || c[first].bytes <= target)
    ensures ChosenA0(c[dropped..], target) == ChosenA0(c, target)
  {
    var kept := c[dropped..];
    var i, j := FirstAbove(kept, 1, target) - 1, FirstAbove(c, 1, target) - 1;
    ChoiceIsLatestBelow(c, target);
    assert first <= j;
    assert Sorted(kept);
    ChoiceIsLatestBelow(kept, target);
    assert IsLatestBelow(kept, target, j - dropped);
    LatestBelowIsUnique(kept, target, i, j - dropped);
  }

  /** Pruning never changes a later answer: whatever is appended, a target at least as large finds the same point. */
  lemma PruningIsHarmless(c: seq<AckPoint>, target: nat, later: seq<AckPoint>, target': nat)
    requires c != [] && Sorted(c + later) && target <= target'
    ensures PrunedA0(c, target) != []
    ensures ChosenA0(PrunedA0(c, target) + later, target') == ChosenA0(c + later, target')
  {
    hide ChosenA0;
    var first := FirstAbove(c, 1, target) - 1;
    var dropped := PrunedIsSuffix(c, target);
    assert first == 0 || c[first].bytes <= target';
    DroppingIsHarmless(c + later, dropped, first, target');
    assert (c + later)[dropped..] == c[dropped..] + later;
  }

  // ---------- The invariant ----------

  /** The snapshot of a tracked packet never runs ahead of the sampler's own totals. */
  ghost predicate PacketOk(s: Sampler, n: int)
    requires n in s.packets
  {
    var p := s.packets[n];
    && 0 <= n <= s.lastSent
    && p.state.isValid
    && p.sentAtLastAcked <= p.state.totalBytesSent <= s.totalBytesSent
    && p.size <= p.state.totalBytesSent
    && p.state.totalBytesAcked <= s.totalBytesAcked
    && p.lastAckedSentTime <= p.lastAckedAckTime <= p.sentTime
  }

  ghost predicate PacketsOk(s: Sampler) { forall n :: n in s.packets ==> PacketOk(s, n) }

  /** In an app-limited phase every tracked packet beyond the end of the phase is marked. */
  ghost predicate PhaseOk(s: Sampler) {
    && INVALID_PACKET <= s.endOfAppLimitedPhase <= s.lastSent
    && (s.isAppLimited ==>
          forall n :: n in s.packets && n > s.endOfAppLimitedPhase ==> s.packets[n].state.isAppLimited)
  }

  /** A0 candidates are sorted, and none is ahead of the ack point that would be saved next. */
  ghost predicate CandidatesOk(s: Sampler) {
    && Sorted(s.candidates)
    && s.recent.older.bytes <= s.recent.newer.bytes <= s.totalBytesAcked
    && (s.candidates != [] ==>
          s.overestimateAvoidance && s.candidates[|s.candidates| - 1].bytes <= s.recent.LessRecent().bytes)
  }

  ghost predicate TotalsOk(s: Sampler) {
    && s.sentAtLastAcked <= s.totalBytesSent
    && s.lastAckedSentTime <= s.lastAckedAckTime
    && s.ackedAfterLastEvent <= s.totalBytesAcked
    && s.tracker.threshold == (if s.overestimateAvoidance then 2.0 else 1.0) && s.tracker.epochBytes >= 0
    && s.tracker.epochStart <= s.lastAckedAckTime
  }

  ghost predicate Inv(s: Sampler) { PacketsOk(s) && PhaseOk(s) && CandidatesOk(s) && TotalsOk(s) }

  // ---------- Runs ----------

  datatype Event =
    | Sent(time: Time, number: int, bytes: nat, bytesInFlight: nat, isRetransmittable: bool)
    | Acknowledged(time: Time, number: int)
    | Lost(number: int, bytes: nat)
    | Neutered(number: int)
    | AppLimited
    | Forget(leastUnacked: int)
    | AckEventEnd(bandwidth: Bandwidth, isNewMaxBandwidth: bool, round: nat)
    | AvoidOverestimates

  function Step(s: Sampler, e: Event): Sampler {
    match e
    case Sent(time, number, bytes, inFlight, isRetransmittable) =>
      OnPacketSent(s, time, number, bytes, inFlight, isRetransmittable)
    case Acknowledged(time, number) => OnPacketAcknowledged(s, time, number).0
    case Lost(number, bytes) => OnPacketLost(s, bytes)
    case Neutered(number) => OnPacketNeutered(s, number)
    case AppLimited => OnAppLimited(s)
    case Forget(leastUnacked) => RemoveObsolete(s, leastUnacked)
    case AckEventEnd(bandwidth, isNewMaxBandwidth, round) =>
      OnAckEventEnd(s, bandwidth, isNewMaxBandwidth, round).0
    case AvoidOverestimates => EnableOverestimateAvoidance(s)
  }

  /** The clock has reached the latest ack, and the packet was not acknowledged before it was sent. */
  ghost predicate AckInTime(s: Sampler, time: Time, number: int) {
    time >= s.lastAckedAckTime && (number in s.packets ==> time >= s.packets[number].sentTime)
  }

  /** The caller's side: packet numbers increase, the clock does not run backwards and acks follow their packets. */
  ghost predicate Allowed(s: Sampler, e: Event) {
    match e
    case Sent(time, number, _, _, _) => number > s.lastSent && time >= s.lastAckedAckTime
    case Acknowledged(time, number) => AckInTime(s, time, number)
    case _ => true
  }

  /** The state after some steps. */
  ghost function Fold(s: Sampler, events: seq<Event>): Sampler {
    if events == [] then s else Step(Fold(s, events[..|events| - 1]), events[|events| - 1])
  }

  ghost predicate AllAllowed(s: Sampler, events: seq<Event>) {
    forall i :: 0 <= i < |events| ==> Allowed(Fold(s, events[..i]), events[i])
  }

  ghost function After(window: nat, events: seq<Event>): Sampler { Fold(InitialSampler(window), events) }

  ghost predicate Admissible(window: nat, events: seq<Event>) { AllAllowed(InitialSampler(window), events) }

  // ---------- Every step keeps the invariant ----------

  lemma AdvancingKeepsInv(s: Sampler, number: int, bytes: nat)
    requires Inv(s) && number > s.lastSent
    ensures Inv(s.(lastSent := number, totalBytesSent := s.totalBytesSent + bytes))
  {
    var t := s.(lastSent := number, totalBytesSent := s.totalBytesSent + bytes);
    forall n | n in t.packets ensures PacketOk(t, n) {
      assert PacketOk(s, n);
    }
  }

  lemma RestartKeepsInv(s: Sampler, time: Time)
    requires Inv(s) && time >= s.lastAckedAckTime
    ensures Inv(Restarted(s, time)) && Restarted(s, time).lastAckedAckTime == time
  {
    var t := Restarted(s, time);
    forall n | n in t.packets ensures PacketOk(t, n) {
      assert PacketOk(s, n);
    }
  }

  lemma TrackingKeepsInv(s: Sampler, time: Time, bytes: nat, inFlight: nat)
    requires Inv(s) && s.lastSent >= 0 && time >= s.lastAckedAckTime && bytes <= s.totalBytesSent
    requires s.lastSent !in s.packets
    ensures Inv(s.(packets := s.packets[s.lastSent := Snapshot(s, time, bytes, inFlight)]))
  {
    var t := s.(packets := s.packets[s.lastSent := Snapshot(s, time, bytes, inFlight)]);
    forall n | n in t.packets ensures PacketOk(t, n) {
      if n != s.lastSent {
        assert PacketOk(s, n);
      }
    }
  }

  lemma SentKeepsInv(s: Sampler, time: Time, number: int, bytes: nat, inFlight: nat, isRetransmittable: bool)
    requires Inv(s) && number > s.lastSent && time >= s.lastAckedAckTime
    ensures Inv(OnPacketSent(s, time, number, bytes, inFlight, isRetransmittable))
  {
    hide Inv;
    hide Snapshot;
    NumberIsNew(s, number);
    if !isRetransmittable {
      AdvancingKeepsInv(s, number, 0);
      assert s.totalBytesSent + 0 == s.totalBytesSent;
    } else {
      AdvancingKeepsInv(s, number, bytes);
      var t := s.(lastSent := number, totalBytesSent := s.totalBytesSent + bytes);
      if inFlight == 0 {
        RestartKeepsInv(t, time);
        TrackingKeepsInv(Restarted(t, time), time, bytes, bytes);
      } else {
        TrackingKeepsInv(t, time, bytes, inFlight + bytes);
      }
    }
  }

  lemma NumberIsNew(s: Sampler, number: int)
    requires Inv(s) && number > s.lastSent
    ensures number !in s.packets && number >= 0
  {
    assert number in s.packets ==> PacketOk(s, number);
  }

  lemma CreditedKeepsInv(s: Sampler, time: Time, number: int)
    requires Inv(s) && number in s.packets && AckInTime(s, time, number)
    ensures Inv(Credited(s, time, number))
  {
    var t := Credited(s, time, number);
    assert PacketOk(s, number);
    forall n | n in t.packets ensures PacketOk(t, n) {
      assert PacketOk(s, n);
    }
  }

  lemma PruningKeepsInv(s: Sampler, target: nat)
    requires Inv(s) && s.candidates != []
    ensures Inv(s.(candidates := PrunedA0(s.candidates, target)))
  {
    var t := s.(candidates := PrunedA0(s.candidates, target));
    var dropped := PrunedIsSuffix(s.candidates, target);
    forall n | n in t.packets ensures PacketOk(t, n) {
      assert PacketOk(s, n);
    }
  }

  lemma AcknowledgedKeepsInv(s: Sampler, time: Time, number: int)
    requires Inv(s) && AckInTime(s, time, number)
    ensures Inv(OnPacketAcknowledged(s, time, number).0)
  {
    hide PrunedA0;
    hide ChosenA0;
    var t := s.(lastAcked := number);
    assert Inv(t) by {
      forall n | n in t.packets ensures PacketOk(t, n) {
        assert PacketOk(s, n);
      }
    }
    if number in t.packets {
      CreditedKeepsInv(t, time, number);
      var u := Credited(t, time, number);
      if ChoosesA0(u) {
        PruningKeepsInv(u, t.packets[number].state.totalBytesAcked);
      }
    }
  }

  lemma EventEndKeepsInv(s: Sampler, bandwidth: Bandwidth, isNewMaxBandwidth: bool, round: nat)
    requires Inv(s)
    ensures Inv(OnAckEventEnd(s, bandwidth, isNewMaxBandwidth, round).0)
  {
    hide UpdatedTracker;
    var newlyAcked := s.totalBytesAcked - s.ackedAfterLastEvent;
    if newlyAcked > 0 {
      ZeroExtraMeansNewEpoch(s.tracker, bandwidth, isNewMaxBandwidth, round, s.lastSent, s.lastAcked,
                             s.lastAckedAckTime, newlyAcked);
      var t := OnAckEventEnd(s, bandwidth, isNewMaxBandwidth, round).0;
      forall n | n in t.packets ensures PacketOk(t, n) {
        assert PacketOk(s, n);
      }
    }
  }

  lemma ForgettingKeepsInv(s: Sampler, e: Event)
    requires Inv(s) && !e.Sent? && !e.Acknowledged? && !e.AckEventEnd?
    ensures Inv(Step(s, e))
  {
    var t := Step(s, e);
    forall n | n in t.packets ensures PacketOk(t, n) {
      assert PacketOk(s, n);
    }
    if e.AppLimited? {
      forall n | n in t.packets ensures n <= t.lastSent {
        assert PacketOk(s, n);
      }
    }
  }

  lemma StepKeepsInv(s: Sampler, e: Event)
    requires Inv(s) && Allowed(s, e)
    ensures Inv(Step(s, e))
  {
    hide Inv;
    match e
    case Sent(time, number, bytes, inFlight, isRetransmittable) =>
      SentKeepsInv(s, time, number, bytes, inFlight, isRetransmittable);
    case Acknowledged(time, number) => AcknowledgedKeepsInv(s, time, number);
    case AckEventEnd(bandwidth, isNewMaxBandwidth, round) => EventEndKeepsInv(s, bandwidth, isNewMaxBandwidth, round);
    case _ => ForgettingKeepsInv(s, e);
  }

  lemma {:induction false} AlwaysInv(window: nat, events: seq<Event>)
    requires Admissible(window, events)
    ensures Inv(After(window, events))
  {
    hide Step;
    hide Allowed;
    if events != [] {
      var n := |events| - 1;
      var past := events[..n];
      assert forall i :: 0 <= i < n ==> past[i] == events[i] && past[..i] == events[..i];
      AlwaysInv(window, past);
      StepKeepsInv(After(window, past), events[n]);
    }
  }

  // ---------- App-limited phases ----------

  /** The ack that ends an app-limited phase is always for a packet that itself is marked app-limited. */
  lemma PhaseEndsOnMarkedPacket(window: nat, events: seq<Event>, time: Time, number: int)
    requires Admissible(window, events)
    requires var s := After(window, events);
             s.isAppLimited && !OnPacketAcknowledged(s, time, number).0.isAppLimited
    ensures var s := After(window, events);
            number in s.packets && s.packets[number].state.isAppLimited
  {
    AlwaysInv(window, events);
    var s := After(window, events);
    if number in s.packets {
      assert PacketOk(s, number);
    }
  }

  // ---------- Samples ----------

  /** Both slopes of a sample are well defined: no numerator or denominator is negative, and the numerator of the ack
      slope is at least the size of the acknowledged packet. Without overestimate avoidance, the ack slope spans at
      least the packet's own round trip. The guards of the code exclude denominators of zero. */
  lemma SlopesAreDefined(s: Sampler, time: Time, number: int)
    requires Inv(s) && number in s.packets
    ensures var p, t := s.packets[number], Credited(s, time, number);
            && p.state.totalBytesSent - p.sentAtLastAcked >= 0
            && p.sentTime - p.lastAckedSentTime >= 0
            && t.totalBytesAcked - A0(t, p).bytes >= p.size
            && (!s.overestimateAvoidance ==> time - A0(t, p).time >= time - p.sentTime)
  {
    assert PacketOk(s, number);
    var p, t := s.packets[number], Credited(s, time, number);
    if ChoosesA0(t) {
      var j := FirstAbove(t.candidates, 1, p.state.totalBytesAcked) - 1;
      assert t.candidates[j].bytes <= t.candidates[|t.candidates| - 1].bytes;
    }
  }

  /** A sample is a whole number of bytes per second and never infinite. */
  lemma SamplesAreWholeBytes(s: Sampler, time: Time, number: int)
    ensures var sample := OnPacketAcknowledged(s, time, number).1;
            sample.bandwidth % 8 == 0 && sample.bandwidth < INF_BANDWIDTH
  {
    hide BandwidthFromDelta;
    hide PrunedA0;
    hide ChosenA0;
    if number in s.packets {
      var p, t := s.packets[number], Credited(s.(lastAcked := number), time, number);
      if p.sentTime > p.lastAckedSentTime {
        BandwidthIsWholeBytes(p.state.totalBytesSent - p.sentAtLastAcked, p.sentTime - p.lastAckedSentTime);
      }
      if time > A0(t, p).time {
        BandwidthIsWholeBytes(t.totalBytesAcked - A0(t, p).bytes, time - A0(t, p).time);
      }
    }
  }

  /** A valid sample is that of a tracked packet, taken with its send state, and its RTT is the packet's round trip. It is valid
      exactly if the packet has a send slope to start from and the ack slope spans some time. */
  lemma SampleIsRoundTrip(s: Sampler, time: Time, number: int)
    ensures var sample := OnPacketAcknowledged(s, time, number).1;
            && (sample.state.isValid ==>
                  && number in s.packets
                  && sample.rtt == time - s.packets[number].sentTime
                  && sample.state == s.packets[number].state.(isValid := true))
            && (number in s.packets && !s.overestimateAvoidance ==>
                  var p := s.packets[number];
                  sample.state.isValid <==> p.lastAckedSentTime != NO_TIME && time > p.lastAckedAckTime)
  {
    hide PrunedA0;
    hide ChosenA0;
    hide BandwidthFromDelta;
  }

  /** Short of overflow, a rate is its slope in whole bytes per second. */
  lemma RateIsSlope(bytes: nat, delta: nat)
    requires delta > 0 && bytes * SECOND * 8 < TWO_TO_THE_64
    ensures BandwidthFromDelta(bytes, delta) == 8 * (bytes * SECOND / delta)
  {
    RateOfTotal(bytes * SECOND, delta);
  }

  lemma RateOfTotal(total: nat, delta: nat)
    requires delta > 0 && total * 8 < TWO_TO_THE_64
    ensures total % TWO_TO_THE_64 / delta * 8 % TWO_TO_THE_64 == 8 * (total / delta)
  {
    var q := total / delta;
    assert total % TWO_TO_THE_64 == total;
    QuotientIsSmaller(total, delta);
    assert 0 <= q * 8 < TWO_TO_THE_64;
  }

  lemma QuotientIsSmaller(a: nat, b: nat)
    requires b > 0
    ensures 0 <= a / b <= a
  {
    QuotientIsBelow(a, b);
    Below(1, b, a / b);
  }

  /** The products of both slopes fit their integers. */
  predicate SlopesFit(p: Packet, credited: Sampler) {
    && 0 <= (p.state.totalBytesSent - p.sentAtLastAcked) * SECOND * 8 < TWO_TO_THE_64
    && 0 <= (credited.totalBytesAcked - A0(credited, p).bytes) * SECOND * 8 < TWO_TO_THE_64
  }

  /** Short of overflow, a valid sample is the lower of its two slopes, in whole bytes per second; the send slope counts only
      if it spans some time. */
  lemma SampleIsLowerSlope(s: Sampler, time: Time, number: int)
    requires Inv(s) && number in s.packets && SlopesFit(s.packets[number], Credited(s, time, number))
    ensures var p, t := s.packets[number], Credited(s, time, number);
            var sample, a0 := OnPacketAcknowledged(s, time, number).1, A0(t, p);
            sample.state.isValid ==>
              && time > a0.time
              && var ackSlope := 8 * ((t.totalBytesAcked - a0.bytes) * SECOND / (time - a0.time));
                 if p.sentTime > p.lastAckedSentTime then
                   var sendSlope := 8 * ((p.state.totalBytesSent - p.sentAtLastAcked) * SECOND / (p.sentTime - p.lastAckedSentTime));
                   sample.sendRate == sendSlope && sample.bandwidth == Min(sendSlope, ackSlope)
                 else sample.sendRate == INF_BANDWIDTH && sample.bandwidth == ackSlope
  {
    hide PrunedA0;
    hide ChosenA0;
    hide BandwidthFromDelta;
    SlopesAreDefined(s, time, number);
    var p, t := s.packets[number], Credited(s, time, number);
    var a0 := A0(t, p);
    assert A0(Credited(s.(lastAcked := number), time, number), p) == a0;
    if p.sentTime > p.lastAckedSentTime {
      RateIsSlope(p.state.totalBytesSent - p.sentAtLastAcked, p.sentTime - p.lastAckedSentTime);
    }
    if time > a0.time {
      RateIsSlope(t.totalBytesAcked - a0.bytes, time - a0.time);
      BandwidthIsWholeBytes(t.totalBytesAcked - a0.bytes, time - a0.time);
    }
  }

  lemma QuotientIsBelow(a: nat, b: nat)
    requires b > 0
    ensures a / b * b <= a
  {
    assert a == a / b * b + a % b;
  }

  /** Wrap-around can only lower a rate, so a rate never exceeds its slope. */
  lemma RateIsBelowSlope(bytes: nat, delta: nat)
    requires delta > 0
    ensures BandwidthFromDelta(bytes, delta) * delta <= 8 * SECOND * bytes
  {
    var total := bytes * SECOND % TWO_TO_THE_64;
    var q := total / delta;
    assert total <= bytes * SECOND;
    QuotientIsBelow(total, delta);
    var rate := BandwidthFromDelta(bytes, delta);
    assert rate == q * 8 % TWO_TO_THE_64 <= q * 8;
    Below(rate, q * 8, delta);
    assert q * 8 * delta == 8 * (q * delta);
  }

  /** As the sampler's documentation promises, a sample exceeds neither the send slope nor the ack slope, even where the
      products of the source wrap around. */
  lemma SampleIsBelowBothSlopes(s: Sampler, time: Time, number: int)
    requires Inv(s) && number in s.packets
    ensures var p, t := s.packets[number], Credited(s, time, number);
            var sample, a0 := OnPacketAcknowledged(s, time, number).1, A0(t, p);
            && (p.sentTime > p.lastAckedSentTime ==>
                  sample.bandwidth * (p.sentTime - p.lastAckedSentTime)
                    <= 8 * SECOND * (p.state.totalBytesSent - p.sentAtLastAcked))
            && (time > a0.time ==> sample.bandwidth * (time - a0.time) <= 8 * SECOND * (t.totalBytesAcked - a0.bytes))
  {
    hide BandwidthFromDelta;
    hide PrunedA0;
    hide ChosenA0;
    SlopesAreDefined(s, time, number);
    assert PacketOk(s, number);
    var p, t := s.packets[number], Credited(s, time, number);
    var a0 := A0(t, p);
    assert A0(Credited(s.(lastAcked := number), time, number), p) == a0;
    var sample := OnPacketAcknowledged(s, time, number).1;
    if p.sentTime > p.lastAckedSentTime {
      var bytes, delta := p.state.totalBytesSent - p.sentAtLastAcked, p.sentTime - p.lastAckedSentTime;
      RateIsBelowSlope(bytes, delta);
      Below(sample.bandwidth, SendRate(p), delta);
    }
    if time > a0.time {
      var bytes, delta := t.totalBytesAcked - a0.bytes, time - a0.time;
      RateIsBelowSlope(bytes, delta);
      Below(sample.bandwidth, BandwidthFromDelta(bytes, delta), delta);
    }
  }

  lemma Below(a: nat, b: nat, c: nat)
    requires a <= b
    ensures a * c <= b * c
  {
  }

  // ---------- Epochs and candidates ----------

  /** Under overestimate avoidance, an ack event saves an A0 candidate exactly when it starts an aggregation epoch. */
  lemma EpochsSaveCandidates(s: Sampler, bandwidth: Bandwidth, isNewMaxBandwidth: bool, round: nat)
    requires Inv(s) && s.overestimateAvoidance
    ensures var (t, extra) := OnAckEventEnd(s, bandwidth, isNewMaxBandwidth, round);
            var saved := t.tracker.epochs - s.tracker.epochs;
            && (saved == 0 || saved == 1)
            && t.candidates == s.candidates + (if saved == 1 then [s.recent.LessRecent()] else [])
            && extra >= 0
  {
    hide UpdatedTracker;
    var newlyAcked := s.totalBytesAcked - s.ackedAfterLastEvent;
    if newlyAcked > 0 {
      ZeroExtraMeansNewEpoch(s.tracker, bandwidth, isNewMaxBandwidth, round, s.lastSent, s.lastAcked,
                             s.lastAckedAckTime, newlyAcked);
    }
  }

  // ---------- Whole congestion events ----------

  lemma {:induction false} LossesOnlyAdd(s: Sampler, lost: seq<PacketInfo>)
    ensures LoseAll(s, lost).sampler == s.(totalBytesLost := LoseAll(s, lost).sampler.totalBytesLost)
    ensures LoseAll(s, lost).sampler.totalBytesLost >= s.totalBytesLost
  {
    if lost != [] {
      LossesOnlyAdd(s, lost[..|lost| - 1]);
    }
  }

  /** What an event leaves alone or only lets grow. */
  ghost predicate Follows(s: Sampler, t: Sampler) {
    && t.lastSent == s.lastSent && t.totalBytesSent == s.totalBytesSent && t.packets == s.packets
    && t.totalBytesAcked >= s.totalBytesAcked && t.totalBytesLost >= s.totalBytesLost
    && t.totalBytesNeutered == s.totalBytesNeutered && t.overestimateAvoidance == s.overestimateAvoidance
  }

  lemma AcknowledgedFollows(s: Sampler, time: Time, number: int)
    requires AckInTime(s, time, number)
    ensures var (t, sample) := OnPacketAcknowledged(s, time, number);
            Follows(s, t) && t.lastAckedAckTime <= time && sample.rtt >= 0
  {
    hide PrunedA0;
    hide ChosenA0;
    hide BandwidthFromDelta;
  }

  ghost predicate AcksInTime(s: Sampler, time: Time, acked: seq<PacketInfo>) {
    time >= s.lastAckedAckTime && forall i :: 0 <= i < |acked| ==> AckInTime(s, time, acked[i].number)
  }

  lemma {:induction false} AcksKeepInv(s: Sampler, time: Time, acked: seq<PacketInfo>)
    requires Inv(s) && AcksInTime(s, time, acked)
    ensures var f := AckAll(s, time, acked);
            && Inv(f.sampler) && Follows(s, f.sampler) && f.sampler.lastAckedAckTime <= time && f.rtt > 0
            && f.maxBandwidth % 8 == 0 && f.maxBandwidth < INF_BANDWIDTH
  {
    hide Inv;
    hide OnPacketAcknowledged;
    if acked != [] {
      var n := |acked| - 1;
      AcksKeepInv(s, time, acked[..n]);
      var f := AckAll(s, time, acked[..n]);
      assert AckInTime(s, time, acked[n].number);
      AcknowledgedKeepsInv(f.sampler, time, acked[n].number);
      AcknowledgedFollows(f.sampler, time, acked[n].number);
      SamplesAreWholeBytes(f.sampler, time, acked[n].number);
    }
  }

  /** The clock of the latest ack never runs backwards during an event, and a sample sets it to the event's time. */
  lemma {:induction false} AcksMoveClock(s: Sampler, time: Time, acked: seq<PacketInfo>)
    ensures var f := AckAll(s, time, acked);
            && (f.sampler.lastAckedAckTime == time || f.sampler.lastAckedAckTime == s.lastAckedAckTime)
            && (f.rtt != INF_RTT ==> f.sampler.lastAckedAckTime == time)
  {
    hide OnPacketAcknowledged;
    if acked != [] {
      var n := |acked| - 1;
      AcksMoveClock(s, time, acked[..n]);
      AckMovesClock(AckAll(s, time, acked[..n]).sampler, time, acked[n].number);
    }
  }

  lemma AckMovesClock(s: Sampler, time: Time, number: int)
    ensures var (t, sample) := OnPacketAcknowledged(s, time, number);
            && (t.lastAckedAckTime == time || t.lastAckedAckTime == s.lastAckedAckTime)
            && (sample.state.isValid ==> t.lastAckedAckTime == time)
  {
    hide PrunedA0;
    hide ChosenA0;
    hide BandwidthFromDelta;
  }

  /** The same for a whole event. */
  lemma EventMovesClock(s: Sampler, time: Time, acked: seq<PacketInfo>, lost: seq<PacketInfo>,
                        maxBandwidth: Bandwidth, upperBound: Bandwidth, round: nat)
    requires AcksInTime(s, time, acked)
    ensures var (t, sample) := OnCongestionEvent(s, time, acked, lost, maxBandwidth, upperBound, round);
            && s.lastAckedAckTime <= t.lastAckedAckTime <= time
            && (sample.rtt != INF_RTT ==> t.lastAckedAckTime == time)
  {
    hide OnAckEventEnd;
    hide AckAll;
    hide LoseAll;
    hide LastState;
    LossesOnlyAdd(s, lost);
    var l := LoseAll(s, lost).sampler;
    AcksMoveClock(l, time, acked);
    var a := AckAll(l, time, acked);
    var best := Max(maxBandwidth, a.maxBandwidth);
    best := if a.sampler.limitBySendRate then Max(best, a.maxSendRate) else best;
    EventEndFollows(a.sampler, Min(upperBound, best), a.maxBandwidth > maxBandwidth, round);
  }

  lemma LossesKeepInv(s: Sampler, lost: nat)
    requires Inv(s)
    ensures Inv(s.(totalBytesLost := lost))
  {
    var t := s.(totalBytesLost := lost);
    forall n | n in t.packets ensures PacketOk(t, n) {
      assert PacketOk(s, n);
    }
  }

  lemma EventEndFollows(s: Sampler, bandwidth: Bandwidth, isNewMaxBandwidth: bool, round: nat)
    ensures var t := OnAckEventEnd(s, bandwidth, isNewMaxBandwidth, round).0;
            Follows(s, t) && t.totalBytesAcked == s.totalBytesAcked && t.lastAckedAckTime == s.lastAckedAckTime
  {
    hide UpdatedTracker;
  }

  /** A whole congestion event keeps the invariant, and its best bandwidth sample is a whole number of bytes per second. */
  lemma EventKeepsInv(s: Sampler, time: Time, acked: seq<PacketInfo>, lost: seq<PacketInfo>,
                      maxBandwidth: Bandwidth, upperBound: Bandwidth, round: nat)
    requires Inv(s) && AcksInTime(s, time, acked)
    ensures var (t, sample) := OnCongestionEvent(s, time, acked, lost, maxBandwidth, upperBound, round);
            && Inv(t) && Follows(s, t) && t.lastAckedAckTime <= time && sample.rtt > 0
            && sample.maxBandwidth % 8 == 0 && sample.maxBandwidth < INF_BANDWIDTH
            && (acked == [] ==> t.totalBytesAcked == s.totalBytesAcked)
  {
    hide Inv;
    hide OnAckEventEnd;
    hide AckAll;
    hide LoseAll;
    hide LastState;
    LossesOnlyAdd(s, lost);
    var l := LoseAll(s, lost).sampler;
    LossesKeepInv(s, l.totalBytesLost);
    LossesKeepTime(s, l.totalBytesLost, time, acked);
    AcksKeepInv(l, time, acked);
    var a := AckAll(l, time, acked);
    var best := Max(maxBandwidth, a.maxBandwidth);
    best := if a.sampler.limitBySendRate then Max(best, a.maxSendRate) else best;
    EventEndKeepsInv(a.sampler, Min(upperBound, best), a.maxBandwidth > maxBandwidth, round);
    EventEndFollows(a.sampler, Min(upperBound, best), a.maxBandwidth > maxBandwidth, round);
  }

  ghost function LossSteps(lost: seq<PacketInfo>): seq<Event> {
    seq(|lost|, i requires 0 <= i < |lost| => Lost(lost[i].number, lost[i].bytes))
  }

  ghost function AckSteps(time: Time, acked: seq<PacketInfo>): seq<Event> {
    seq(|acked|, i requires 0 <= i < |acked| => Acknowledged(time, acked[i].number))
  }

  lemma {:induction false} LossesAreSteps(s: Sampler, lost: seq<PacketInfo>)
    ensures LoseAll(s, lost).sampler == Fold(s, LossSteps(lost))
  {
    if lost != [] {
      var n := |lost| - 1;
      LossesAreSteps(s, lost[..n]);
      assert LossSteps(lost)[..n] == LossSteps(lost[..n]);
    }
  }

  lemma {:induction false} AcksAreSteps(s: Sampler, time: Time, acked: seq<PacketInfo>)
    ensures AckAll(s, time, acked).sampler == Fold(s, AckSteps(time, acked))
  {
    hide OnPacketAcknowledged;
    if acked != [] {
      var n := |acked| - 1;
      AcksAreSteps(s, time, acked[..n]);
      assert AckSteps(time, acked)[..n] == AckSteps(time, acked[..n]);
    }
  }

  lemma AckStepsAreAllowed(s: Sampler, time: Time, acked: seq<PacketInfo>)
    requires Inv(s) && AcksInTime(s, time, acked)
    ensures AllAllowed(s, AckSteps(time, acked))
  {
    hide Inv;
    hide OnPacketAcknowledged;
    var steps := AckSteps(time, acked);
    forall i | 0 <= i < |steps| ensures Allowed(Fold(s, steps[..i]), steps[i]) {
      AcksAreSteps(s, time, acked[..i]);
      AcksKeepInv(s, time, acked[..i]);
      assert steps[..i] == AckSteps(time, acked[..i]);
      assert AckInTime(s, time, acked[i].number);
    }
  }

  lemma {:induction false} FoldInTwo(s: Sampler, a: seq<Event>, b: seq<Event>)
    ensures Fold(s, a + b) == Fold(Fold(s, a), b)
  {
    hide Step;
    if b == [] {
      assert a + b == a;
    } else {
      var n := |b| - 1;
      FoldInTwo(s, a, b[..n]);
      assert (a + b)[..|a| + n] == a + b[..n];
    }
  }

  /** Two stretches of allowed steps make one. */
  lemma AllowedInTwo(s: Sampler, a: seq<Event>, b: seq<Event>)
    requires AllAllowed(s, a) && AllAllowed(Fold(s, a), b)
    ensures AllAllowed(s, a + b) && Fold(s, a + b) == Fold(Fold(s, a), b)
  {
    hide Fold;
    hide Allowed;
    FoldInTwo(s, a, b);
    var all := a + b;
    forall i | 0 <= i < |all| ensures Allowed(Fold(s, all[..i]), all[i]) {
      if i < |a| {
        assert all[..i] == a[..i];
      } else {
        FoldInTwo(s, a, b[..i - |a|]);
        assert all[..i] == a + b[..i - |a|];
      }
    }
  }

  /** Steps without a condition on the caller are always allowed. */
  lemma FreeStep(s: Sampler, e: Event)
    requires !e.Sent? && !e.Acknowledged?
    ensures AllAllowed(s, [e]) && Fold(s, [e]) == Step(s, e)
  {
    hide Step;
    assert [e][..0] == [];
  }

  /** The best bandwidth that the tracker is given at the end of an event: of the old estimate, the event's samples and, with
      that option on, its send rates. */
  function BestOf(f: AckFold, maxBandwidth: Bandwidth): Bandwidth {
    var best := Max(maxBandwidth, f.maxBandwidth);
    if f.sampler.limitBySendRate && f.maxSendRate > best then f.maxSendRate else best
  }

  /** A whole congestion event moves the sampler by exactly one step for each lost and each acked packet and one for the
      end of an ack event, every one of them allowed, so what is proved of all admissible runs of steps holds of runs of
      congestion events. The end of the event knows the best bandwidth so far, up to the bound, and whether it is new. */
  lemma EventIsSteps(s: Sampler, time: Time, acked: seq<PacketInfo>, lost: seq<PacketInfo>,
                     maxBandwidth: Bandwidth, upperBound: Bandwidth, round: nat)
    returns (end: Event)
    requires Inv(s) && AcksInTime(s, time, acked)
    ensures var f := AckAll(LoseAll(s, lost).sampler, time, acked);
            end == AckEventEnd(Min(upperBound, BestOf(f, maxBandwidth)), f.maxBandwidth > maxBandwidth, round)
    ensures var steps := LossSteps(lost) + if acked == [] then [] else AckSteps(time, acked) + [end];
            && OnCongestionEvent(s, time, acked, lost, maxBandwidth, upperBound, round).0 == Fold(s, steps)
            && AllAllowed(s, steps)
  {
    hide Inv;
    hide OnAckEventEnd;
    hide LastState;
    hide Fold;
    hide AcksInTime;
    LossesAreSteps(s, lost);
    LossesOnlyAdd(s, lost);
    var l := LoseAll(s, lost).sampler;
    LossesKeepInv(s, l.totalBytesLost);
    assert AcksInTime(l, time, acked) by {
      LossesKeepTime(s, l.totalBytesLost, time, acked);
    }
    var a := AckAll(l, time, acked);
    AcksAreSteps(l, time, acked);
    AckStepsAreAllowed(l, time, acked);
    var best := Max(maxBandwidth, a.maxBandwidth);
    best := if a.sampler.limitBySendRate then Max(best, a.maxSendRate) else best;
    end := AckEventEnd(Min(upperBound, best), a.maxBandwidth > maxBandwidth, round);
    FreeStep(a.sampler, end);
    AllowedInTwo(l, AckSteps(time, acked), [end]);
    if acked == [] {
      assert LossSteps(lost) + [] == LossSteps(lost);
    } else {
      AllowedInTwo(s, LossSteps(lost), AckSteps(time, acked) + [end]);
    }
  }

  lemma LossesKeepTime(s: Sampler, lost: nat, time: Time, acked: seq<PacketInfo>)
    requires AcksInTime(s, time, acked)
    ensures AcksInTime(s.(totalBytesLost := lost), time, acked)
  {
    assert forall i :: 0 <= i < |acked| ==> AckInTime(s, time, acked[i].number);
  }

  /** The sample of the i-th acked packet of an event, taken when its turn comes. */
  ghost function SampleAt(s: Sampler, time: Time, acked: seq<PacketInfo>, i: nat): Sample
    requires i < |acked|
  {
    OnPacketAcknowledged(AckAll(s, time, acked[..i]).sampler, time, acked[i].number).1
  }

  ghost predicate HasRtt(s: Sampler, time: Time, acked: seq<PacketInfo>, i: nat, rtt: int)
    requires i < |acked|
  {
    SampleAt(s, time, acked, i).state.isValid && SampleAt(s, time, acked, i).rtt == rtt
  }

  ghost predicate HasSendRate(s: Sampler, time: Time, acked: seq<PacketInfo>, i: nat, rate: int)
    requires i < |acked|
  {
    && SampleAt(s, time, acked, i).state.isValid
    && SampleAt(s, time, acked, i).sendRate == rate && rate != INF_BANDWIDTH
  }

  /** The bytes acked since the i-th acked packet was sent, as its ack finds them. */
  ghost function InflightAt(s: Sampler, time: Time, acked: seq<PacketInfo>, i: nat): int
    requires i < |acked|
  {
    AckAll(s, time, acked[..i + 1]).sampler.totalBytesAcked - SampleAt(s, time, acked, i).state.totalBytesAcked
  }

  ghost predicate HasInflight(s: Sampler, time: Time, acked: seq<PacketInfo>, i: nat, inflight: int)
    requires i < |acked|
  {
    SampleAt(s, time, acked, i).state.isValid && InflightAt(s, time, acked, i) == inflight
  }

  /** What an event reports is extremal over its acked packets: no valid sample has more bandwidth or a shorter RTT, and
      a nonzero bandwidth and a finite RTT are each that of one of them, the bandwidth with its app-limited mark. */
  lemma {:induction false} EventSampleIsExtremal(s: Sampler, time: Time, acked: seq<PacketInfo>)
    ensures var f := AckAll(s, time, acked);
            && (forall i :: 0 <= i < |acked| && SampleAt(s, time, acked, i).state.isValid ==>
                  && SampleAt(s, time, acked, i).bandwidth <= f.maxBandwidth
                  && (SampleAt(s, time, acked, i).rtt != 0 ==> f.rtt <= SampleAt(s, time, acked, i).rtt))
            && (f.maxBandwidth > 0 ==>
                  exists i :: 0 <= i < |acked| && SampleAt(s, time, acked, i).bandwidth == f.maxBandwidth
                              && SampleAt(s, time, acked, i).state.isAppLimited == f.isAppLimited)
            && (f.rtt != INF_RTT ==> exists i :: 0 <= i < |acked| && HasRtt(s, time, acked, i, f.rtt))
  {
    hide OnPacketAcknowledged;
    if acked != [] {
      var n := |acked| - 1;
      var past := acked[..n];
      EventSampleIsExtremal(s, time, past);
      forall i | 0 <= i < n ensures SampleAt(s, time, acked, i) == SampleAt(s, time, past, i) {
        assert past[..i] == acked[..i] && past[i] == acked[i];
      }
      var f, g := AckAll(s, time, past), AckAll(s, time, acked);
      if g.maxBandwidth > 0 && g.maxBandwidth == f.maxBandwidth && g.isAppLimited == f.isAppLimited {
        var i :| 0 <= i < n && SampleAt(s, time, past, i).bandwidth == f.maxBandwidth
                 && SampleAt(s, time, past, i).state.isAppLimited == f.isAppLimited;
        assert SampleAt(s, time, acked, i) == SampleAt(s, time, past, i);
      }
      assert SampleAt(s, time, acked, n) == OnPacketAcknowledged(f.sampler, time, acked[n].number).1;
      if g.rtt != INF_RTT && g.rtt == f.rtt {
        var i :| 0 <= i < n && HasRtt(s, time, past, i, f.rtt);
        assert HasRtt(s, time, acked, i, g.rtt);
      } else if g.rtt != INF_RTT {
        assert HasRtt(s, time, acked, n, g.rtt);
      }
    }
  }

  /** Likewise no valid sample has a larger finite send rate, or found more bytes acked since its packet was sent, and nonzero
      ones are each that of one of them. */
  lemma {:induction false} EventRatesAreExtremal(s: Sampler, time: Time, acked: seq<PacketInfo>)
    ensures var f := AckAll(s, time, acked);
            && (forall i :: 0 <= i < |acked| && SampleAt(s, time, acked, i).state.isValid ==>
                  && (SampleAt(s, time, acked, i).sendRate != INF_BANDWIDTH ==>
                        SampleAt(s, time, acked, i).sendRate <= f.maxSendRate)
                  && InflightAt(s, time, acked, i) <= f.maxInflight)
            && (f.maxSendRate > 0 ==> exists i :: 0 <= i < |acked| && HasSendRate(s, time, acked, i, f.maxSendRate))
            && (f.maxInflight > 0 ==> exists i :: 0 <= i < |acked| && HasInflight(s, time, acked, i, f.maxInflight))
  {
    hide OnPacketAcknowledged;
    if acked != [] {
      var n := |acked| - 1;
      var past := acked[..n];
      EventRatesAreExtremal(s, time, past);
      forall i | 0 <= i < n ensures SampleAt(s, time, acked, i) == SampleAt(s, time, past, i) {
        assert past[..i] == acked[..i] && past[i] == acked[i];
      }
      assert acked[..n + 1] == acked;
      forall i | 0 <= i < n ensures InflightAt(s, time, acked, i) == InflightAt(s, time, past, i) {
        assert past[..i + 1] == acked[..i + 1];
      }
      var f, g := AckAll(s, time, past), AckAll(s, time, acked);
      assert SampleAt(s, time, acked, n) == OnPacketAcknowledged(f.sampler, time, acked[n].number).1;
      if g.maxSendRate > 0 && g.maxSendRate == f.maxSendRate {
        var i :| 0 <= i < n && HasSendRate(s, time, past, i, f.maxSendRate);
        assert HasSendRate(s, time, acked, i, g.maxSendRate);
      } else if g.maxSendRate > 0 {
        assert HasSendRate(s, time, acked, n, g.maxSendRate);
      }
      if g.maxInflight > 0 && g.maxInflight == f.maxInflight {
        var i :| 0 <= i < n && HasInflight(s, time, past, i, f.maxInflight);
        assert HasInflight(s, time, acked, i, g.maxInflight);
      } else if g.maxInflight > 0 {
        assert HasInflight(s, time, acked, n, g.maxInflight);
      }
    }
  }

  // ---------- Byte accounting ----------

  /** The congestion-controlled packets sent so far, in order. */
  ghost function SentLog(events: seq<Event>): seq<PacketInfo> {
    if events == [] then []
    else
      var e, log := events[|events| - 1], SentLog(events[..|events| - 1]);
      if e.Sent? && e.isRetransmittable then log + [PacketInfo(e.number, e.bytes)] else log
  }

  /** The packets reported acked, lost or neutered so far. */
  ghost function Reported(events: seq<Event>): set<int> {
    if events == [] then {}
    else
      var e, done := events[|events| - 1], Reported(events[..|events| - 1]);
      if e.Acknowledged? || e.Lost? || e.Neutered? then done + {e.number} else done
  }

  /** The reported packets whose bytes were counted: an ack or neutering of a forgotten packet counts nothing. */
  ghost function Counted(window: nat, events: seq<Event>): set<int> {
    if events == [] then {}
    else
      var e, past := events[|events| - 1], events[..|events| - 1];
      var done := Counted(window, past);
      if e.Lost? || ((e.Acknowledged? || e.Neutered?) && e.number in After(window, past).packets)
      then done + {e.number} else done
  }

  /** Every packet is reported at most once, and a loss report carries the size that was sent. */
  ghost predicate ReportedOnce(events: seq<Event>) {
    forall i :: 0 <= i < |events| ==>
      var e := events[i];
      && (e.Acknowledged? || e.Lost? || e.Neutered? ==> e.number !in Reported(events[..i]))
      && (e.Lost? ==> PacketInfo(e.number, e.bytes) in SentLog(events[..i]))
  }

  /** The bytes of the packets inside, or outside, a set. */
  ghost function Sum(log: seq<PacketInfo>, numbers: set<int>, inside: bool): nat {
    if log == [] then 0
    else
      var p := log[|log| - 1];
      Sum(log[..|log| - 1], numbers, inside) + if (p.number in numbers) == inside then p.bytes else 0
  }

  ghost predicate Increasing(log: seq<PacketInfo>) {
    forall i, j :: 0 <= i < j < |log| ==> log[i].number < log[j].number
  }

  /** Counting one more packet moves exactly its bytes. */
  lemma {:induction false} CountOne(log: seq<PacketInfo>, numbers: set<int>, p: PacketInfo)
    requires Increasing(log) && p in log && p.number !in numbers
    ensures Sum(log, numbers + {p.number}, true) == Sum(log, numbers, true) + p.bytes
    ensures Sum(log, numbers + {p.number}, false) == Sum(log, numbers, false) - p.bytes
  {
    var n := |log| - 1;
    if log[n] == p {
      assert forall i :: 0 <= i < n ==> log[i].number < log[n].number;
      CountOthers(log[..n], numbers, p.number);
    } else {
      var i :| 0 <= i <= n && log[i] == p;
      assert log[i].number < log[n].number;
      assert log[..n][i] == p;
      CountOne(log[..n], numbers, p);
    }
  }

  lemma {:induction false} CountOthers(log: seq<PacketInfo>, numbers: set<int>, number: int)
    requires forall i :: 0 <= i < |log| ==> log[i].number != number
    ensures forall inside :: Sum(log, numbers + {number}, inside) == Sum(log, numbers, inside)
  {
    if log != [] {
      CountOthers(log[..|log| - 1], numbers, number);
    }
  }

  lemma AppendSum(log: seq<PacketInfo>, p: PacketInfo, numbers: set<int>)
    requires p.number !in numbers
    ensures Sum(log + [p], numbers, true) == Sum(log, numbers, true)
    ensures Sum(log + [p], numbers, false) == Sum(log, numbers, false) + p.bytes
  {
    assert (log + [p])[..|log|] == log;
  }

  /** What the totals of a state say about the log of sent packets and the set of counted ones. */
  ghost predicate Balanced(s: Sampler, log: seq<PacketInfo>, counted: set<int>) {
    && s.totalBytesAcked + s.totalBytesLost + s.totalBytesNeutered == Sum(log, counted, true)
    && s.totalBytesSent == Sum(log, counted, true) + Sum(log, counted, false)
  }

  /** The log is in sending order and every tracked packet is in it with its size. */
  ghost predicate Logged(s: Sampler, log: seq<PacketInfo>, counted: set<int>) {
    && Increasing(log)
    && (forall i :: 0 <= i < |log| ==> log[i].number <= s.lastSent)
    && (forall n :: n in counted ==> n <= s.lastSent)
    && (forall n :: n in s.packets ==> PacketInfo(n, s.packets[n].size) in log)
  }

  lemma SentIsBalanced(s: Sampler, e: Event, log: seq<PacketInfo>, counted: set<int>)
    requires e.Sent? && Allowed(s, e) && Balanced(s, log, counted) && Logged(s, log, counted)
    ensures var log' := if e.isRetransmittable then log + [PacketInfo(e.number, e.bytes)] else log;
            Balanced(Step(s, e), log', counted) && Logged(Step(s, e), log', counted)
  {
    hide Sum;
    AppendSum(log, PacketInfo(e.number, e.bytes), counted);
    if e.isRetransmittable {
      var log' := log + [PacketInfo(e.number, e.bytes)];
      assert log'[|log|] == PacketInfo(e.number, e.bytes);
      assert forall p :: p in log ==> p in log';
    }
  }

  /** Events that count nothing leave the balance as it is. */
  lemma QuietIsBalanced(s: Sampler, e: Event, log: seq<PacketInfo>, counted: set<int>)
    requires !e.Sent? && !e.Lost? && Balanced(s, log, counted) && Logged(s, log, counted)
    requires (e.Acknowledged? || e.Neutered?) ==> e.number !in s.packets
    ensures Balanced(Step(s, e), log, counted) && Logged(Step(s, e), log, counted)
  {
    hide Sum;
    hide UpdatedTracker;
  }

  lemma CountedIsBalanced(s: Sampler, e: Event, log: seq<PacketInfo>, counted: set<int>)
    requires Balanced(s, log, counted) && Logged(s, log, counted)
    requires (e.Lost? && PacketInfo(e.number, e.bytes) in log) ||
             ((e.Acknowledged? || e.Neutered?) && e.number in s.packets)
    requires e.number !in counted
    ensures Balanced(Step(s, e), log, counted + {e.number}) && Logged(Step(s, e), log, counted + {e.number})
  {
    hide Sum;
    hide Step;
    CountingStep(s, e);
    CountOne(log, counted, PacketInfo(e.number, if e.Lost? then e.bytes else s.packets[e.number].size));
  }

  /** A step that counts a packet adds its bytes to one total and tracks no new packet. */
  lemma CountingStep(s: Sampler, e: Event)
    requires e.Lost? || ((e.Acknowledged? || e.Neutered?) && e.number in s.packets)
    ensures var t := Step(s, e);
            && t.lastSent == s.lastSent && t.totalBytesSent == s.totalBytesSent
            && t.totalBytesAcked + t.totalBytesLost + t.totalBytesNeutered
               == s.totalBytesAcked + s.totalBytesLost + s.totalBytesNeutered
                  + (if e.Lost? then e.bytes else s.packets[e.number].size)
            && forall n :: n in t.packets ==> n in s.packets && t.packets[n] == s.packets[n]
  {
    if e.Acknowledged? {
      AckCounts(s, e.time, e.number);
    }
    hide OnPacketAcknowledged;
  }

  lemma AckCounts(s: Sampler, time: Time, number: int)
    requires number in s.packets
    ensures var t := OnPacketAcknowledged(s, time, number).0;
            && t.lastSent == s.lastSent && t.totalBytesSent == s.totalBytesSent && t.packets == s.packets
            && t.totalBytesAcked == s.totalBytesAcked + s.packets[number].size
            && t.totalBytesLost == s.totalBytesLost && t.totalBytesNeutered == s.totalBytesNeutered
  {
    hide PrunedA0;
    hide ChosenA0;
    hide BandwidthFromDelta;
  }

  ghost function Numbers(ps: seq<PacketInfo>): set<int> { set p | p in ps :: p.number }

  ghost predicate Distinct(ps: seq<PacketInfo>) {
    forall i, j :: 0 <= i < j < |ps| ==> ps[i].number != ps[j].number
  }

  lemma SplitLast(ps: seq<PacketInfo>)
    requires ps != [] && Distinct(ps)
    ensures var n := |ps| - 1;
            && Numbers(ps) == Numbers(ps[..n]) + {ps[n].number} && ps[n].number !in Numbers(ps[..n])
            && Distinct(ps[..n]) && forall p :: p in ps[..n] ==> p in ps
  {
    var n := |ps| - 1;
    assert ps == ps[..n] + [ps[n]];
    forall p | p in ps[..n] ensures p.number != ps[n].number {
      var i :| 0 <= i < n && ps[..n][i] == p;
    }
  }

  lemma {:induction false} LossesAreBalanced(s: Sampler, lost: seq<PacketInfo>, log: seq<PacketInfo>, counted: set<int>)
    requires Balanced(s, log, counted) && Logged(s, log, counted)
    requires Distinct(lost) && Numbers(lost) !! counted && forall p :: p in lost ==> p in log
    ensures var t := LoseAll(s, lost).sampler;
            Balanced(t, log, counted + Numbers(lost)) && Logged(t, log, counted + Numbers(lost))
  {
    hide Balanced;
    hide Logged;
    hide Numbers;
    hide Distinct;
    if lost == [] {
      assert Numbers(lost) == {} by {
        NoNumbers();
      }
      assert counted + {} == counted;
    } else {
      var n := |lost| - 1;
      SplitLast(lost);
      LossesAreBalanced(s, lost[..n], log, counted);
      var p := lost[n];
      CountedIsBalanced(LoseAll(s, lost[..n]).sampler, Lost(p.number, p.bytes), log, counted + Numbers(lost[..n]));
      assert counted + Numbers(lost) == counted + Numbers(lost[..n]) + {p.number};
    }
  }

  lemma NoNumbers()
    ensures Numbers([]) == {}
  {
  }

  lemma AckKeepsPackets(s: Sampler, time: Time, number: int)
    ensures OnPacketAcknowledged(s, time, number).0.packets == s.packets
  {
    hide PrunedA0;
    hide ChosenA0;
    hide BandwidthFromDelta;
  }

  /** Of the acked packets, exactly the tracked ones are counted. */
  lemma {:induction false} AcksAreBalanced(s: Sampler, time: Time, acked: seq<PacketInfo>, log: seq<PacketInfo>, counted: set<int>)
    requires Balanced(s, log, counted) && Logged(s, log, counted)
    requires Distinct(acked) && Numbers(acked) !! counted
    ensures var t, now := AckAll(s, time, acked).sampler, counted + (Numbers(acked) * s.packets.Keys);
            t.packets == s.packets && Balanced(t, log, now) && Logged(t, log, now)
  {
    hide Balanced;
    hide Logged;
    hide Numbers;
    hide Distinct;
    hide OnPacketAcknowledged;
    if acked == [] {
      NoNumbers();
      assert counted + ({} * s.packets.Keys) == counted;
    } else {
      var n := |acked| - 1;
      SplitLast(acked);
      AcksAreBalanced(s, time, acked[..n], log, counted);
      var number, t := acked[n].number, AckAll(s, time, acked[..n]).sampler;
      var before := counted + (Numbers(acked[..n]) * s.packets.Keys);
      AckKeepsPackets(t, time, number);
      if number in t.packets {
        CountedIsBalanced(t, Acknowledged(time, number), log, before);
        assert counted + (Numbers(acked) * s.packets.Keys) == before + {number};
      } else {
        QuietIsBalanced(t, Acknowledged(time, number), log, before);
        assert counted + (Numbers(acked) * s.packets.Keys) == before;
      }
    }
  }

  /** A congestion event counts the packets it reports lost and those of the acked ones that are tracked. */
  lemma EventIsBalanced(s: Sampler, time: Time, acked: seq<PacketInfo>, lost: seq<PacketInfo>,
                        maxBandwidth: Bandwidth, upperBound: Bandwidth, round: nat, log: seq<PacketInfo>, counted: set<int>)
    requires Balanced(s, log, counted) && Logged(s, log, counted)
    requires Distinct(lost) && Distinct(acked) && Numbers(lost) !! Numbers(acked)
    requires Numbers(lost) !! counted && Numbers(acked) !! counted && forall p :: p in lost ==> p in log
    ensures var t := OnCongestionEvent(s, time, acked, lost, maxBandwidth, upperBound, round).0;
            var now := counted + Numbers(lost) + (Numbers(acked) * s.packets.Keys);
            Balanced(t, log, now) && Logged(t, log, now)
  {
    hide Balanced;
    hide Logged;
    hide Numbers;
    hide OnAckEventEnd;
    hide LastState;
    LossesAreBalanced(s, lost, log, counted);
    LossesOnlyAdd(s, lost);
    var l := LoseAll(s, lost).sampler;
    AcksAreBalanced(l, time, acked, log, counted + Numbers(lost));
    var a := AckAll(l, time, acked);
    var best := Max(maxBandwidth, a.maxBandwidth);
    best := if a.sampler.limitBySendRate then Max(best, a.maxSendRate) else best;
    QuietIsBalanced(a.sampler, AckEventEnd(Min(upperBound, best), a.maxBandwidth > maxBandwidth, round), log,
                    counted + Numbers(lost) + (Numbers(acked) * s.packets.Keys));
    if acked == [] {
      assert l == a.sampler;
    }
  }

  lemma {:induction false} CountedWasReported(window: nat, events: seq<Event>)
    ensures Counted(window, events) <= Reported(events)
  {
    if events != [] {
      CountedWasReported(window, events[..|events| - 1]);
    }
  }

  /** Exact byte accounting on every run: all bytes sent are acked, lost or neutered, or belong to packets whose
      bytes were not counted yet. */
  lemma {:induction false} BytesAreConserved(window: nat, events: seq<Event>)
    requires Admissible(window, events) && ReportedOnce(events)
    ensures Balanced(After(window, events), SentLog(events), Counted(window, events))
    ensures Logged(After(window, events), SentLog(events), Counted(window, events))
  {
    hide Step;
    hide Balanced;
    hide Logged;
    if events == [] {
      NothingIsBalanced(window);
    } else {
      var n := |events| - 1;
      var past, e := events[..n], events[n];
      assert forall i :: 0 <= i < n ==> past[i] == events[i] && past[..i] == events[..i];
      BytesAreConserved(window, past);
      CountedWasReported(window, past);
      var s, log, counted := After(window, past), SentLog(past), Counted(window, past);
      if e.Sent? {
        SentIsBalanced(s, e, log, counted);
      } else if e.Lost? || ((e.Acknowledged? || e.Neutered?) && e.number in s.packets) {
        CountedIsBalanced(s, e, log, counted);
      } else {
        QuietIsBalanced(s, e, log, counted);
      }
    }
  }

  lemma NothingIsBalanced(window: nat)
    ensures Balanced(InitialSampler(window), [], {}) && Logged(InitialSampler(window), [], {})
  {
  }
}
