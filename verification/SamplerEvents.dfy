/** What the events of the bandwidth sampler say about packets, ack points and app-limited phases. */
module SamplerEvents {
  import opened Common
  import opened SamplerModel
  import opened SamplerProofs
  import AckHeights

  // ---------- The send state of the last packet ----------

  /** The last of some packets that are tracked, or none. */
  ghost function LastTracked(packets: map<int, Packet>, ps: seq<PacketInfo>): (number: Option<int>)
    ensures number.Some? ==> number.value in packets
  {
    if ps == [] then None
    else
      var number := ps[|ps| - 1].number;
      if number in packets then Some(number) else LastTracked(packets, ps[..|ps| - 1])
  }

  /** Among lost packets, the state reported is that of the last tracked one. */
  lemma {:induction false} LastLostIsLastTracked(s: Sampler, lost: seq<PacketInfo>)
    ensures var last := LastTracked(s.packets, lost);
            LoseAll(s, lost).last == if last.Some? then s.packets[last.value].state.(isValid := true) else NO_STATE
  {
    if lost != [] {
      LastLostIsLastTracked(s, lost[..|lost| - 1]);
      LossesOnlyAdd(s, lost[..|lost| - 1]);
    }
  }

  /** The ack of a packet yields a sample when its turn comes. */
  ghost predicate Yields(s: Sampler, time: Time, acked: seq<PacketInfo>, i: nat)
    requires i < |acked|
  {
    SampleAt(s, time, acked, i).state.isValid
  }

  /** Among acked packets, the state reported is that of the last one that yields a sample. */
  lemma {:induction false} LastAckedIsLastSample(s: Sampler, time: Time, acked: seq<PacketInfo>)
    ensures var last := AckAll(s, time, acked).last;
            if last.isValid then
              exists i :: 0 <= i < |acked| && Yields(s, time, acked, i) && last == SampleAt(s, time, acked, i).state
                          && forall j :: i < j < |acked| ==> !Yields(s, time, acked, j)
            else last == NO_STATE && forall j :: 0 <= j < |acked| ==> !Yields(s, time, acked, j)
  {
    hide OnPacketAcknowledged;
    if acked != [] {
      var n := |acked| - 1;
      var past := acked[..n];
      LastAckedIsLastSample(s, time, past);
      forall i | 0 <= i < n
        ensures SampleAt(s, time, acked, i) == SampleAt(s, time, past, i)
        ensures Yields(s, time, acked, i) == Yields(s, time, past, i)
      {
        assert past[..i] == acked[..i] && past[i] == acked[i];
      }
      var f := AckAll(s, time, past);
      assert SampleAt(s, time, acked, n) == OnPacketAcknowledged(f.sampler, time, acked[n].number).1;
      if Yields(s, time, acked, n) {
        assert AckAll(s, time, acked).last == SampleAt(s, time, acked, n).state;
      } else if f.last.isValid {
        var i :| 0 <= i < |past| && Yields(s, time, past, i) && f.last == SampleAt(s, time, past, i).state
                 && forall j :: i < j < |past| ==> !Yields(s, time, past, j);
        assert Yields(s, time, acked, i);
      }
    }
  }

  /** An event reports the send state of its largest packet: that of the last acked packet with a sample or of the last
      tracked lost one, and if there are both, of the one whose side of the event ends with the larger number. */
  lemma EventReportsLargest(s: Sampler, time: Time, acked: seq<PacketInfo>, lost: seq<PacketInfo>,
                            maxBandwidth: Bandwidth, upperBound: Bandwidth, round: nat)
    ensures var x := OnCongestionEvent(s, time, acked, lost, maxBandwidth, upperBound, round).1;
            var l := LoseAll(s, lost).last;
            var a := AckAll(LoseAll(s, lost).sampler, time, acked).last;
            && (a.isValid && !l.isValid ==> x.lastState == a)
            && (l.isValid && !a.isValid ==> x.lastState == l)
            && (!l.isValid && !a.isValid ==> !x.lastState.isValid)
            && (l.isValid && a.isValid ==>
                  && lost != [] && acked != []
                  && (lost[|lost| - 1].number > acked[|acked| - 1].number ==> x.lastState == l)
                  && (lost[|lost| - 1].number < acked[|acked| - 1].number ==> x.lastState == a))
  {
    hide OnAckEventEnd;
    hide OnPacketAcknowledged;
  }

  /** What an event reports beside that is what its acked packets amount to; an event without acks reports nothing. */
  lemma EventReportsSamples(s: Sampler, time: Time, acked: seq<PacketInfo>, lost: seq<PacketInfo>,
                            maxBandwidth: Bandwidth, upperBound: Bandwidth, round: nat)
    ensures var x := OnCongestionEvent(s, time, acked, lost, maxBandwidth, upperBound, round).1;
            var f := AckAll(LoseAll(s, lost).sampler, time, acked);
            && x.maxBandwidth == f.maxBandwidth && x.isAppLimited == f.isAppLimited && x.rtt == f.rtt
            && x.maxInflight == f.maxInflight
  {
    hide OnAckEventEnd;
    hide OnPacketAcknowledged;
    hide LastState;
  }

  // ---------- App-limited phases ----------

  /** The last packet number that some steps send. */
  ghost function LastSentBy(events: seq<Event>): int {
    if events == [] then INVALID_PACKET
    else
      var e := events[|events| - 1];
      if e.Sent? then e.number else LastSentBy(events[..|events| - 1])
  }

  lemma {:induction false} LastSentIsExact(window: nat, events: seq<Event>)
    ensures After(window, events).lastSent == LastSentBy(events)
  {
    hide Step;
    if events != [] {
      LastSentIsExact(window, events[..|events| - 1]);
      StepOnLastSent(After(window, events[..|events| - 1]), events[|events| - 1]);
    }
  }

  lemma StepOnLastSent(s: Sampler, e: Event)
    ensures Step(s, e).lastSent == if e.Sent? then e.number else s.lastSent
  {
    hide PrunedA0;
    hide ChosenA0;
    hide BandwidthFromDelta;
  }

  /** The last packet sent before the latest `OnAppLimited`, if there was one and no tracked packet sent after it has been
      acked since. */
  ghost function PhaseEnd(window: nat, events: seq<Event>): Option<int> {
    if events == [] then None
    else
      var past, e := events[..|events| - 1], events[|events| - 1];
      var end := PhaseEnd(window, past);
      if e.AppLimited? then Some(LastSentBy(past))
      else if end.Some? && e.Acknowledged? && e.number in After(window, past).packets && e.number > end.value then None
      else end
  }

  lemma StepOnPhase(s: Sampler, e: Event)
    requires Inv(s)
    ensures var t := Step(s, e);
            if e.AppLimited? then t.isAppLimited && t.endOfAppLimitedPhase == s.lastSent
            else
              && t.endOfAppLimitedPhase == s.endOfAppLimitedPhase
              && t.isAppLimited ==
                   (s.isAppLimited && !(e.Acknowledged? && e.number in s.packets && e.number > s.endOfAppLimitedPhase))
  {
    hide PrunedA0;
    hide ChosenA0;
    hide BandwidthFromDelta;
    if e.Acknowledged? && e.number in s.packets {
      assert PacketOk(s, e.number);
    }
  }

  /** On every run the sampler is in an app-limited phase exactly from each `OnAppLimited` to the first ack of a tracked
      packet sent after it. */
  lemma {:induction false} PhaseIsExact(window: nat, events: seq<Event>)
    requires Admissible(window, events)
    ensures var s, end := After(window, events), PhaseEnd(window, events);
            s.isAppLimited == end.Some? && (end.Some? ==> s.endOfAppLimitedPhase == end.value)
  {
    hide Step;
    hide Allowed;
    hide Inv;
    if events != [] {
      var n := |events| - 1;
      var past := events[..n];
      assert forall i :: 0 <= i < n ==> past[i] == events[i] && past[..i] == events[..i];
      PhaseIsExact(window, past);
      AlwaysInv(window, past);
      LastSentIsExact(window, past);
      StepOnPhase(After(window, past), events[n]);
    }
  }

  // ---------- Recent ack points ----------

  ghost function ReplayPoints(points: seq<AckPoint>): RecentAckPoints {
    if points == [] then RecentAckPoints(NO_POINT, NO_POINT)
    else ReplayPoints(points[..|points| - 1]).Update(points[|points| - 1].time, points[|points| - 1].bytes)
  }

  /** The latest point before a time. */
  ghost function LatestBefore(points: seq<AckPoint>, time: Time): AckPoint {
    if points == [] then NO_POINT
    else if points[|points| - 1].time < time then points[|points| - 1]
    else LatestBefore(points[..|points| - 1], time)
  }

  /** The ack points since the last restart of the measurement: of the restart itself and of every ack of a tracked packet. */
  ghost function Points(window: nat, events: seq<Event>): seq<AckPoint> {
    if events == [] then []
    else
      var past, e := events[..|events| - 1], events[|events| - 1];
      var s, points := After(window, past), Points(window, past);
      if !s.overestimateAvoidance then points
      else if e.Sent? && e.isRetransmittable && e.bytesInFlight == 0 then [AckPoint(e.time, s.totalBytesAcked)]
      else if e.Acknowledged? && e.number in s.packets
      then points + [AckPoint(e.time, s.totalBytesAcked + s.packets[e.number].size)]
      else points
  }

  lemma StepOnPoints(s: Sampler, e: Event)
    ensures Step(s, e).recent ==
              if !s.overestimateAvoidance then s.recent
              else if e.Sent? && e.isRetransmittable && e.bytesInFlight == 0
              then RecentAckPoints(NO_POINT, NO_POINT).Update(e.time, s.totalBytesAcked)
              else if e.Acknowledged? && e.number in s.packets
              then s.recent.Update(e.time, s.totalBytesAcked + s.packets[e.number].size)
              else s.recent
  {
    hide PrunedA0;
    hide ChosenA0;
    hide BandwidthFromDelta;
    hide RecentAckPoints.Update;
    hide AckHeights.UpdatedTracker;
  }

  lemma PointsOneMore(points: seq<AckPoint>, p: AckPoint)
    ensures ReplayPoints(points + [p]) == ReplayPoints(points).Update(p.time, p.bytes)
  {
    assert (points + [p])[..|points|] == points;
  }

  /** On every run, under overestimate avoidance, the sampler keeps the latest two of these points at different times. */
  lemma {:induction false} RecentIsReplay(window: nat, events: seq<Event>)
    ensures After(window, events).recent == ReplayPoints(Points(window, events))
  {
    hide Step;
    hide RecentAckPoints.Update;
    if events != [] {
      var past, e := events[..|events| - 1], events[|events| - 1];
      RecentIsReplay(window, past);
      var s, points := After(window, past), Points(window, past);
      StepOnPoints(s, e);
      if e.Acknowledged? && e.number in s.packets {
        PointsOneMore(points, AckPoint(e.time, s.totalBytesAcked + s.packets[e.number].size));
      } else if e.Sent? {
        PointsOneMore([], AckPoint(e.time, s.totalBytesAcked));
      }
    }
  }

  /** After every stream of ack points in the order of time, the newer one is the last point and the older one the latest at
      an earlier time. */
  lemma {:induction false} RecentPointsAreLatest(points: seq<AckPoint>)
    requires points != [] && (forall i :: 0 <= i < |points| ==> points[i].time > NO_TIME)
    requires forall i, j :: 0 <= i <= j < |points| ==> points[i].time <= points[j].time
    ensures var last := points[|points| - 1];
            ReplayPoints(points) == RecentAckPoints(LatestBefore(points, last.time), last)
  {
    var n := |points| - 1;
    if n > 0 {
      RecentPointsAreLatest(points[..n]);
      assert points[n - 1].time <= points[n].time;
    }
  }
}
