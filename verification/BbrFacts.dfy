/** What the smaller parts of the BBR sender's state mean on its runs: bytes in flight, losses, the full-bandwidth check, targets,
    app-limited phases and what the ack-height tracker is fed. */
module BbrFacts {
  import opened Common
  import opened WindowedFilters
  import opened SamplerModel
  import opened BbrModel
  import opened BbrProofs
  import opened BbrRuns
  import opened BbrSampling
  import BbrModes
  import BbrWindows
  import AckHeights
  import Pacing
  import AckEpochs
  import SE = SamplerEvents
  import SP = SamplerProofs

  // ---------- Bytes in flight and losses ----------

  /** The bytes of some packets, counted from the front. */
  ghost function BytesOf(ps: seq<PacketInfo>): nat { if ps == [] then 0 else ps[0].bytes + BytesOf(ps[1..]) }

  lemma {:induction false} BytesFromBothEnds(ps: seq<PacketInfo>)
    ensures TotalBytes(ps) == BytesOf(ps)
  {
    if |ps| > 1 {
      var n := |ps| - 1;
      BytesFromBothEnds(ps[..n]);
      BytesFromBothEnds(ps[1..]);
      BytesFromBothEnds(ps[1..n]);
      assert ps[1..][..n - 1] == ps[1..n] && ps[..n][1..] == ps[1..n];
    }
  }

  lemma {:induction false} LostIsSum(s: Sampler, lost: seq<PacketInfo>)
    ensures LoseAll(s, lost).sampler.totalBytesLost == s.totalBytesLost + TotalBytes(lost)
  {
    if lost != [] {
      LostIsSum(s, lost[..|lost| - 1]);
    }
  }

  lemma LostInEvent(b: Bbr, e: Congestion)
    ensures SamplerOutcome(b, e).0.totalBytesLost == b.sampler.totalBytesLost + BytesOf(e.lost)
  {
    hide FallsIdle;
    hide RoundsAfter;
    hide AckAll;
    hide LoseAll;
    hide LastState;
    hide OnAckEventEnd;
    LostIsSum(SamplerBefore(b, e), e.lost);
    BytesFromBothEnds(e.lost);
    var l := LoseAll(SamplerBefore(b, e), e.lost).sampler;
    AcksKeepLost(l, e.time, e.acked);
    EndKeepsLost(AckAll(l, e.time, e.acked).sampler);
  }

  lemma {:induction false} AcksKeepLost(s: Sampler, time: Time, acked: seq<PacketInfo>)
    ensures AckAll(s, time, acked).sampler.totalBytesLost == s.totalBytesLost
  {
    hide OnPacketAcknowledged;
    if acked != [] {
      AcksKeepLost(s, time, acked[..|acked| - 1]);
      AckKeepsLost(AckAll(s, time, acked[..|acked| - 1]).sampler, time, acked[|acked| - 1].number);
    }
  }

  lemma AckKeepsLost(s: Sampler, time: Time, number: int)
    ensures OnPacketAcknowledged(s, time, number).0.totalBytesLost == s.totalBytesLost
  {
    hide PrunedA0;
    hide ChosenA0;
    hide BandwidthFromDelta;
  }

  lemma EndKeepsLost(s: Sampler)
    ensures forall bandwidth: Bandwidth, isNew, round: nat ::
              OnAckEventEnd(s, bandwidth, isNew, round).0.totalBytesLost == s.totalBytesLost
  {
    hide AckHeights.UpdatedTracker;
  }

  /** The loss events of the round under way, and their bytes, after n calls. */
  ghost function LossesInRound(states: seq<Bbr>, events: seq<Event>, n: nat): (nat, nat)
    requires |states| == |events| + 1 && n <= |events|
  {
    if n == 0 then (0, 0)
    else
      var b, e, (count, bytes) := states[n - 1], events[n - 1], LossesInRound(states, events, n - 1);
      if StartsRoundAt(b, e) then (0, 0)
      else if e.Congested? && e.congestion.lost != [] then (count + 1, bytes + BytesOf(e.congestion.lost))
      else (count, bytes)
  }

  /** What one call does to the bytes in flight and to the loss counters. */
  lemma StepOnLosses(b: Bbr, e: Event)
    requires Inv(b) && Allowed(b, e)
    ensures var c := Step(b, e);
            && c.bytesInFlight == (match e
                                   case Sent(_, bytesInFlight, _, _, _) => bytesInFlight
                                   case Congested(x) => x.priorInFlight - BytesOf(x.acked) - BytesOf(x.lost)
                                   case DatagramSize(_) => b.bytesInFlight)
            && c.losses == if StartsRoundAt(b, e) then Losses(0, 0)
                           else if e.Congested? && e.congestion.lost != []
                           then Losses(b.losses.events + 1, b.losses.bytes + BytesOf(e.congestion.lost))
                           else b.losses
  {
    hide SP.Inv;
    RoundStartIsExact(b, e);
    hide StartsRoundAt;
    if e.Congested? {
      BytesFromBothEnds(e.congestion.acked);
      BytesFromBothEnds(e.congestion.lost);
      LostInEvent(b, e.congestion);
      hide SamplerOutcome;
      hide FullAfter;
      hide ModesBeforeStay;
      hide ModesAfter;
      hide NextMaxBandwidth;
      hide NextMinRtt;
      hide NextWindow;
      hide NextPacingRate;
      hide NextRecoveryWindow;
      hide RecoveryStep;
      hide RoundsAfter;
      hide IsRoundStart;
      hide TargetAt;
    }
  }

  /** On every run the counters hold the loss events of the round under way and the bytes they lost. */
  lemma {:induction false} LossesAreExact(c: Config, datagram: nat, states: seq<Bbr>, events: seq<Event>, n: nat)
    requires IsRun(c, datagram, states, events) && n < |states|
    ensures var (count, bytes) := LossesInRound(states, events, n); states[n].losses == Losses(count, bytes)
  {
    hide Inv;
    hide Step;
    hide Allowed;
    hide StartsRoundAt;
    if n > 0 {
      LossesAreExact(c, datagram, states, events, n - 1);
      AlwaysInv(c, datagram, states, events, n - 1);
      assert Follows(states[n - 1], events[n - 1], states[n - 1 + 1]);
      StepOnLosses(states[n - 1], events[n - 1]);
    } else {
      assert states[0] == InitialBbr(c, datagram);
    }
  }

  // ---------- The full-bandwidth check ----------

  /** Too much loss: at least eight loss events and more than 2% of what was in flight when the last packet was sent. */
  lemma TooMuchLossIsExact(l: Losses, last: SendState)
    ensures TooMuchLoss(l, last) <==>
              l.events >= 8 && last.isValid && last.bytesInFlight > 0 && 50 * l.bytes > last.bytesInFlight
  {
    var share := last.bytesInFlight as real * LOSS_THRESHOLD;
    assert 50.0 * share == last.bytesInFlight as real;
  }

  /** A round gains if the estimate is at least 1.25 times the one remembered, rounded down. */
  lemma GainIsExact(f: FullBandwidth, estimate: Bandwidth)
    ensures Gained(f, estimate) <==> 4 * estimate + 4 > 5 * f.bandwidthAtLastRound
  {
    var target := f.bandwidthAtLastRound as real * STARTUP_GROWTH_TARGET;
    assert 4.0 * target == (5 * f.bandwidthAtLastRound) as real;
  }

  /** What the losses of an event amount to, those of the round before it included. */
  ghost function LossesAt(b: Bbr, e: Congestion): Losses {
    Losses(b.losses.events + (if e.lost != [] then 1 else 0), b.losses.bytes + BytesOf(e.lost))
  }

  /** What one call makes of the full-bandwidth check, exactly: only a round start before full bandwidth whose latest sample
      was not app-limited counts. If the estimate gained a quarter it is remembered; otherwise the round counts, and the third
      such round, or too much loss, means full bandwidth. */
  lemma StepOnCheck(b: Bbr, e: Event)
    requires Inv(b) && Allowed(b, e)
    ensures var c := Step(b, e);
            var estimate := c.maxBandwidth.best.sample;
            if !ChecksBandwidth(b, e, c) then c.full == b.full
            else if 4 * estimate + 4 > 5 * b.full.bandwidthAtLastRound then c.full == FullBandwidth(false, 0, estimate)
            else
              var last, l := SamplerOutcome(b, e.congestion).1.lastState, LossesAt(b, e.congestion);
              && c.full.bandwidthAtLastRound == b.full.bandwidthAtLastRound
              && c.full.roundsWithoutGain == b.full.roundsWithoutGain + 1
              && (c.full.reached <==>
                    || b.full.roundsWithoutGain >= 2
                    || (l.events >= 8 && last.isValid && last.bytesInFlight > 0 && 50 * l.bytes > last.bytesInFlight))
  {
    hide SP.Inv;
    RoundStartIsExact(b, e);
    hide StartsRoundAt;
    if e.Congested? {
      LostInEvent(b, e.congestion);
      var (sampler, sample) := SamplerOutcome(b, e.congestion);
      GainIsExact(b.full, Step(b, e).maxBandwidth.best.sample);
      TooMuchLossIsExact(PathAfter(b, e.congestion, sampler, sample).losses, sample.lastState);
      NoLostBytes(e.congestion.lost);
      hide SamplerOutcome;
      hide TooMuchLoss;
      hide Gained;
      hide ModesBeforeStay;
      hide ModesAfter;
      hide NextMaxBandwidth;
      hide NextMinRtt;
      hide NextWindow;
      hide NextPacingRate;
      hide NextRecoveryWindow;
      hide RecoveryStep;
      hide RoundsAfter;
      hide InFlightAfter;
      hide IsRoundStart;
      hide TargetAt;
    }
  }

  lemma NoLostBytes(lost: seq<PacketInfo>)
    ensures lost == [] ==> BytesOf(lost) == 0
  {
  }

  // ---------- Limits ----------

  /** The send state that an event reports for its largest packet. */
  ghost function LastStateAt(b: Bbr, e: Event): SendState {
    if e.Congested? then SamplerOutcome(b, e.congestion).1.lastState else NO_STATE
  }

  /** Whether the latest event that reported a send state reported an app-limited one. */
  ghost function LastWasLimited(states: seq<Bbr>, events: seq<Event>, n: nat): bool
    requires |states| == |events| + 1 && n <= |events|
  {
    n > 0 &&
    var last := LastStateAt(states[n - 1], events[n - 1]);
    if last.isValid then last.isAppLimited else LastWasLimited(states, events, n - 1)
  }

  lemma StepOnLimits(b: Bbr, e: Event)
    requires Allowed(b, e)
    ensures var last, c := LastStateAt(b, e), Step(b, e);
            && c.limits.lastSampleIsAppLimited == (if last.isValid then last.isAppLimited else b.limits.lastSampleIsAppLimited)
            && c.limits.hasNonAppLimitedSample == (b.limits.hasNonAppLimitedSample || (last.isValid && !last.isAppLimited))
  {
    hide SamplerOutcome;
    hide FullAfter;
    hide ModesBeforeStay;
    hide ModesAfter;
    hide NextMaxBandwidth;
    hide NextMinRtt;
    hide NextWindow;
    hide NextPacingRate;
    hide NextRecoveryWindow;
    hide RecoveryStep;
    hide RoundsAfter;
    hide InFlightAfter;
    hide IsRoundStart;
    hide TargetAt;
  }

  /** On every run the sender knows whether the latest sample was app-limited and whether any was not. */
  lemma {:induction false} LimitsAreExact(c: Config, datagram: nat, states: seq<Bbr>, events: seq<Event>, n: nat)
    requires IsRun(c, datagram, states, events) && n < |states|
    ensures states[n].limits.lastSampleIsAppLimited == LastWasLimited(states, events, n)
    ensures states[n].limits.hasNonAppLimitedSample <==>
              exists k :: 0 <= k < n && LastStateAt(states[k], events[k]).isValid && !LastStateAt(states[k], events[k]).isAppLimited
  {
    hide Step;
    hide Allowed;
    hide LastStateAt;
    if n > 0 {
      LimitsAreExact(c, datagram, states, events, n - 1);
      assert Follows(states[n - 1], events[n - 1], states[n - 1 + 1]);
      StepOnLimits(states[n - 1], events[n - 1]);
    } else {
      assert states[0] == InitialBbr(c, datagram);
    }
  }

  // ---------- Targets ----------

  /** The minimum RTT that targets are computed with: the sender's own, or that of the connection's statistics, or 100 ms. */
  ghost function RttFor(value: int, statsRtt: nat): int {
    if value > 0 then value else if statsRtt > 0 then statsRtt else 100_000_000
  }

  lemma RttForIsUsed(value: nat, statsRtt: nat)
    ensures GetMinRtt(value, statsRtt) == RttFor(value, statsRtt) > 0
  {
  }

  /** Every target of an event is the gain times the bandwidth-delay product of what the sender knows after the event, in whole
      bytes, or of the initial window while that is less than a byte, and at least the minimum window; as long as the product
      fits an int64. */
  lemma EventTargetIsExact(b: Bbr, e: Congestion, gain: real)
    requires Inv(b) && Allowed(b, Congested(e)) && gain >= 0.0
    ensures var c := OnCongestion(b, e);
            var rtt, estimate := RttFor(c.minRtt.value, e.statsRtt), c.maxBandwidth.best.sample;
            0 < rtt && (rtt * estimate < TWO_TO_THE_63 ==>
                          BbrModes.EventTarget(b, e, gain) == BbrWindows.ScaledProduct(b.config, rtt, estimate, gain))
  {
    EventOnPath(b, e);
    StepKeepsInv(b, Congested(e));
    RttIsKnown(Step(b, Congested(e)));
    var c, p := OnCongestion(b, e), BbrModes.EventPath(b, e);
    assert BbrModes.EventTarget(b, e, gain) == TargetAt(b, e, p, p.minRtt.value, gain);
    assert c == Step(b, Congested(e));
    hide *;
    TargetOfPath(b, e, p, gain);
  }

  lemma RttIsKnown(b: Bbr)
    requires Inv(b)
    ensures b.minRtt.value >= 0
  {
  }

  lemma TargetOfPath(b: Bbr, e: Congestion, p: Path, gain: real)
    requires gain >= 0.0 && p.minRtt.value >= 0
    ensures var rtt, estimate := RttFor(p.minRtt.value, e.statsRtt), p.maxBandwidth.best.sample;
            0 < rtt && (rtt * estimate < TWO_TO_THE_63 ==>
                          TargetAt(b, e, p, p.minRtt.value, gain) == BbrWindows.ScaledProduct(b.config, rtt, estimate, gain))
  {
    RttForIsUsed(p.minRtt.value, e.statsRtt);
    var rtt, estimate := RttFor(p.minRtt.value, e.statsRtt), p.maxBandwidth.best.sample;
    assert TargetAt(b, e, p, p.minRtt.value, gain) == TargetWindow(b.config, rtt, estimate, gain);
    hide *;
    if rtt * estimate < TWO_TO_THE_63 {
      BbrWindows.TargetIsExact(b.config, rtt, estimate, gain);
    }
  }

  lemma EventOnPath(b: Bbr, e: Congestion)
    requires HasPackets(e)
    ensures var c, p := OnCongestion(b, e), BbrModes.EventPath(b, e);
            c.minRtt.value == p.minRtt.value && c.maxBandwidth == p.maxBandwidth
  {
    hide SamplerOutcome;
    hide PathAfter;
    hide FullAfter;
    hide ModesBeforeStay;
    hide ModesAfter;
    hide NextPacingRate;
    hide NextWindow;
    hide NextRecoveryWindow;
    hide RecoveryStep;
    hide RoundsAfter;
    hide InFlightAfter;
    hide IsRoundStart;
    hide TargetAt;
  }

  // ---------- App-limited phases ----------

  /** The window that caps the bytes in flight. */
  ghost function CapOf(b: Bbr): int {
    if b.modes.mode == ProbeRtt then b.config.minWindow
    else if b.recovery.state == NotInRecovery then b.window
    else Min(b.window, b.recovery.window)
  }

  lemma CapIsReported(b: Bbr)
    ensures GetCongestionWindow(b) == CapOf(b)
  {
  }

  /** The sender takes itself for app-limited when less is in flight than the window allows, except that in DRAIN, with more
      than half of it in flight, more than three datagrams of it must be unused. */
  lemma IdleIsExact(b: Bbr, inFlight: nat)
    requires CapOf(b) >= 0
    ensures FallsIdle(b, inFlight) <==>
              && inFlight < CapOf(b)
              && (b.modes.mode == Drain && inFlight > CapOf(b) / 2 ==> inFlight + 3 * b.datagram < CapOf(b))
  {
    CapIsReported(b);
  }

  /** The last packet sent before the app-limited phase under way was last prolonged, if there is a phase: it is begun or
      prolonged by an event that finds the sender idle or in PROBE_RTT, and ended by the ack of a tracked packet sent later. */
  ghost function PhaseEnd(states: seq<Bbr>, events: seq<Event>, n: nat): Option<int>
    requires |states| == |events| + 1 && n <= |events|
  {
    if n == 0 then None
    else
      var b, e, end := states[n - 1], events[n - 1], PhaseEnd(states, events, n - 1);
      var sent := LastSentBefore(events, n - 1);
      if !e.Congested? then end
      else
        var x := e.congestion;
        var begun := if IsIdle(b, x.priorInFlight) then Some(sent) else end;
        if b.modes.mode == ProbeRtt || states[n].modes.mode == ProbeRtt then Some(sent)
        else if begun.Some? && AcksBeyond(events, n - 1, x.acked, begun.value) then None
        else begun
  }

  ghost predicate IsIdle(b: Bbr, inFlight: nat) {
    && inFlight < CapOf(b)
    && (b.modes.mode == Drain && inFlight > CapOf(b) / 2 ==> inFlight + 3 * b.datagram < CapOf(b))
  }

  /** Some acked packet that is tracked was sent after the given one. */
  ghost predicate AcksBeyond(events: seq<Event>, n: nat, acked: seq<PacketInfo>, end: int)
    requires n <= |events|
  {
    exists i :: 0 <= i < |acked| && IsTracked(events, n, acked[i].number) && acked[i].number > end
  }

  ghost predicate AcksBeyondIn(packets: map<int, Packet>, acked: seq<PacketInfo>, end: int) {
    exists i :: 0 <= i < |acked| && acked[i].number in packets && acked[i].number > end
  }

  lemma AckOnPhase(s: Sampler, time: Time, number: int)
    requires forall k :: k in s.packets ==> k > INVALID_PACKET
    ensures var t := OnPacketAcknowledged(s, time, number).0;
            && t.packets == s.packets && t.endOfAppLimitedPhase == s.endOfAppLimitedPhase
            && t.isAppLimited == (s.isAppLimited && !(number in s.packets && number > s.endOfAppLimitedPhase))
  {
    hide PrunedA0;
    hide ChosenA0;
    hide BandwidthFromDelta;
  }

  lemma {:induction false} AcksOnPhase(s: Sampler, time: Time, acked: seq<PacketInfo>)
    requires forall k :: k in s.packets ==> k > INVALID_PACKET
    ensures var t := AckAll(s, time, acked).sampler;
            && t.packets == s.packets && t.endOfAppLimitedPhase == s.endOfAppLimitedPhase
            && t.isAppLimited == (s.isAppLimited && !AcksBeyondIn(s.packets, acked, s.endOfAppLimitedPhase))
  {
    hide OnPacketAcknowledged;
    if acked != [] {
      var n := |acked| - 1;
      var past := acked[..n];
      AcksOnPhase(s, time, past);
      AckOnPhase(AckAll(s, time, past).sampler, time, acked[n].number);
      if AcksBeyondIn(s.packets, past, s.endOfAppLimitedPhase) {
        var i :| 0 <= i < |past| && past[i].number in s.packets && past[i].number > s.endOfAppLimitedPhase;
        assert acked[i] == past[i];
      }
      if AcksBeyondIn(s.packets, acked, s.endOfAppLimitedPhase) {
        var i :| 0 <= i < |acked| && acked[i].number in s.packets && acked[i].number > s.endOfAppLimitedPhase;
        assert i == n || past[i] == acked[i];
      }
    }
  }

  lemma EndOnPhase(s: Sampler)
    ensures forall bandwidth: Bandwidth, isNew, round: nat ::
              var t := OnAckEventEnd(s, bandwidth, isNew, round).0;
              t.isAppLimited == s.isAppLimited && t.endOfAppLimitedPhase == s.endOfAppLimitedPhase
  {
    hide AckHeights.UpdatedTracker;
  }

  lemma EventOnPhase(b: Bbr, e: Congestion)
    requires Inv(b) && Allowed(b, Congested(e))
    ensures var s, t := b.sampler, OnCongestion(b, e).sampler;
            var begun := FallsIdle(b, e.priorInFlight) || s.isAppLimited;
            var end := if FallsIdle(b, e.priorInFlight) then b.lastSent else s.endOfAppLimitedPhase;
            if b.modes.mode == ProbeRtt || OnCongestion(b, e).modes.mode == ProbeRtt
            then t.isAppLimited && t.endOfAppLimitedPhase == b.lastSent
            else t.isAppLimited == (begun && !AcksBeyondIn(s.packets, e.acked, end)) && t.endOfAppLimitedPhase == end
  {
    hide SP.Inv;
    hide OnCongestion;
    hide AckAll;
    hide LoseAll;
    hide OnAckEventEnd;
    hide LastState;
    hide FallsIdle;
    hide RoundsAfter;
    var _ := EventOnSampler(b, e);
    PreparedIsReady(b, e);
    var s := SamplerBefore(b, e);
    SP.LossesOnlyAdd(s, e.lost);
    SP.EventKeepsInv(s, e.time, e.acked, e.lost, b.maxBandwidth.best.sample, INF_BANDWIDTH, RoundsAfter(b, e).count);
    NumbersAreNatural(b.sampler);
    AcksOnPhase(LoseAll(s, e.lost).sampler, e.time, e.acked);
    EndOnPhase(AckAll(LoseAll(s, e.lost).sampler, e.time, e.acked).sampler);
    if e.acked == [] {
      assert !AcksBeyondIn(b.sampler.packets, e.acked, b.lastSent);
      assert !AcksBeyondIn(b.sampler.packets, e.acked, b.sampler.endOfAppLimitedPhase);
    }
  }

  lemma NumbersAreNatural(s: Sampler)
    requires SP.Inv(s)
    ensures forall k :: k in s.packets ==> k > INVALID_PACKET
  {
    forall k | k in s.packets ensures k > INVALID_PACKET {
      assert SP.PacketOk(s, k);
    }
  }

  lemma AcksBeyondExactly(c: Config, datagram: nat, states: seq<Bbr>, events: seq<Event>, n: nat, acked: seq<PacketInfo>, end: int)
    requires IsRun(c, datagram, states, events) && n < |states|
    ensures AcksBeyond(events, n, acked, end) <==> AcksBeyondIn(states[n].sampler.packets, acked, end)
  {
    hide IsTracked;
    hide Follows;
    forall i | 0 <= i < |acked|
      ensures IsTracked(events, n, acked[i].number) <==> acked[i].number in states[n].sampler.packets
    {
      TrackedExactly(c, datagram, states, events, n, acked[i].number);
    }
  }

  lemma QuietOnPhase(b: Bbr, e: Event)
    requires Allowed(b, e) && !e.Congested?
    ensures Step(b, e).sampler.isAppLimited == b.sampler.isAppLimited
    ensures Step(b, e).sampler.endOfAppLimitedPhase == b.sampler.endOfAppLimitedPhase
  {
  }

  /** On every run the sampler is in an app-limited phase exactly when the calls say so. */
  lemma {:induction false} PhaseIsExact(c: Config, datagram: nat, states: seq<Bbr>, events: seq<Event>, n: nat)
    requires IsRun(c, datagram, states, events) && n < |states|
    ensures var s, end := states[n].sampler, PhaseEnd(states, events, n);
            s.isAppLimited == end.Some? && (end.Some? ==> s.endOfAppLimitedPhase == end.value)
  {
    hide SP.Inv;
    hide OnCongestion;
    hide Allowed;
    hide AcksBeyond;
    hide AcksBeyondIn;
    hide CapOf;
    if n > 0 {
      var b, e := states[n - 1], events[n - 1];
      PhaseIsExact(c, datagram, states, events, n - 1);
      AlwaysInv(c, datagram, states, events, n - 1);
      assert Follows(b, e, states[n - 1 + 1]);
      LastSentIsOnCalls(c, datagram, states, events, n - 1);
      if e.Congested? {
        var x := e.congestion;
        EventOnPhase(b, x);
        CapIsPositive(b);
        IdleIsExact(b, x.priorInFlight);
        AcksBeyondExactly(c, datagram, states, events, n - 1, x.acked, b.lastSent);
        AcksBeyondExactly(c, datagram, states, events, n - 1, x.acked, b.sampler.endOfAppLimitedPhase);
      } else {
        QuietOnPhase(b, e);
      }
    } else {
      assert states[0] == InitialBbr(c, datagram);
    }
  }

  lemma CapIsPositive(b: Bbr)
    requires Inv(b)
    ensures CapOf(b) >= 0
  {
    hide SP.Inv;
    ReportedWindowIsBounded(b);
    CapIsReported(b);
  }

  // ---------- What the ack-height tracker is fed ----------

  /** What an event that acks tracked bytes feeds to the tracker: the best bandwidth so far, the round after the event, and the
      bytes it acks. */
  ghost function AckEventAt(b: Bbr, e: Congestion, c: Bbr): AckEpochs.AckEvent
    requires e.acked != [] && c.sampler.totalBytesAcked >= b.sampler.ackedAfterLastEvent
  {
    var estimate, sample := b.maxBandwidth.best.sample, SamplerOutcome(b, e).1.maxBandwidth;
    AckEpochs.AckEvent(Min(INF_BANDWIDTH, Max(estimate, sample)), sample > estimate, c.rounds.count, b.lastSent, LastAcked(e),
                       e.time, c.sampler.totalBytesAcked - b.sampler.ackedAfterLastEvent)
  }

  lemma AcksOnTracker(s: Sampler, time: Time, number: int)
    ensures var t := OnPacketAcknowledged(s, time, number).0;
            && t.tracker == s.tracker && t.ackedAfterLastEvent == s.ackedAfterLastEvent && t.lastSent == s.lastSent
            && t.lastAcked == number && t.limitBySendRate == s.limitBySendRate
            && t.totalBytesAcked >= s.totalBytesAcked
            && (t.totalBytesAcked > s.totalBytesAcked ==> t.lastAckedAckTime == time)
            && (t.lastAckedAckTime == time || t.lastAckedAckTime == s.lastAckedAckTime)
  {
    hide PrunedA0;
    hide ChosenA0;
    hide BandwidthFromDelta;
  }

  lemma {:induction false} AllAcksOnTracker(s: Sampler, time: Time, acked: seq<PacketInfo>)
    ensures var t := AckAll(s, time, acked).sampler;
            && t.tracker == s.tracker && t.ackedAfterLastEvent == s.ackedAfterLastEvent && t.lastSent == s.lastSent
            && (acked != [] ==> t.lastAcked == acked[|acked| - 1].number) && t.limitBySendRate == s.limitBySendRate
            && t.totalBytesAcked >= s.totalBytesAcked
            && (t.totalBytesAcked > s.totalBytesAcked ==> t.lastAckedAckTime == time)
            && (t.lastAckedAckTime == time || t.lastAckedAckTime == s.lastAckedAckTime)
  {
    hide OnPacketAcknowledged;
    if acked != [] {
      AllAcksOnTracker(s, time, acked[..|acked| - 1]);
      AcksOnTracker(AckAll(s, time, acked[..|acked| - 1]).sampler, time, acked[|acked| - 1].number);
    }
  }

  /** Between events, all acked bytes have been fed; this sampler does not take send rates into account. */
  ghost predicate AllFed(s: Sampler) { s.ackedAfterLastEvent == s.totalBytesAcked && !s.limitBySendRate }

  lemma EventOnTracker(b: Bbr, e: Congestion)
    requires Inv(b) && Allowed(b, Congested(e)) && AllFed(b.sampler)
    ensures var c := OnCongestion(b, e);
            && c.sampler.totalBytesAcked >= b.sampler.totalBytesAcked && AllFed(c.sampler)
            && (c.sampler.totalBytesAcked > b.sampler.totalBytesAcked ==> e.acked != [])
            && c.sampler.tracker == if c.sampler.totalBytesAcked == b.sampler.totalBytesAcked then b.sampler.tracker
                                    else AckEpochs.Step(b.sampler.tracker, AckEventAt(b, e, c)).0
  {
    hide SP.Inv;
    hide OnCongestion;
    hide AckAll;
    hide LoseAll;
    hide LastState;
    hide FallsIdle;
    hide RoundsAfter;
    hide AckHeights.UpdatedTracker;
    var _ := EventOnSampler(b, e);
    RoundsOfEvent(b, e);
    var s := SamplerBefore(b, e);
    SP.LossesOnlyAdd(s, e.lost);
    AllAcksOnTracker(LoseAll(s, e.lost).sampler, e.time, e.acked);
  }

  lemma RoundsOfEvent(b: Bbr, e: Congestion)
    requires HasPackets(e)
    ensures OnCongestion(b, e).rounds == RoundsAfter(b, e)
  {
    hide SamplerOutcome;
    hide PathAfter;
    hide FullAfter;
    hide ModesBeforeStay;
    hide ModesAfter;
    hide NextPacingRate;
    hide NextWindow;
    hide NextRecoveryWindow;
    hide RecoveryStep;
    hide RoundsAfter;
    hide InFlightAfter;
    hide IsRoundStart;
    hide TargetAt;
  }

  lemma QuietOnTracker(b: Bbr, e: Event)
    requires Allowed(b, e) && !e.Congested?
    ensures var s, t := b.sampler, Step(b, e).sampler;
            && t.tracker == s.tracker && t.totalBytesAcked == s.totalBytesAcked
            && t.ackedAfterLastEvent == s.ackedAfterLastEvent && t.limitBySendRate == s.limitBySendRate
  {
    hide Pacing.Sent;
    hide Snapshot;
  }

  /** On every run the tracker is fed one ack event for each congestion event that acks tracked bytes, so what is proved of the
      tracker on all logs holds inside the sender. */
  lemma {:induction false} TrackerIsFed(c: Config, datagram: nat, states: seq<Bbr>, events: seq<Event>, n: nat)
    returns (log: seq<AckEpochs.AckEvent>)
    requires IsRun(c, datagram, states, events) && n < |states|
    ensures states[n].sampler.tracker == AckEpochs.After(AckHeights.Initial(BANDWIDTH_WINDOW), log) && AllFed(states[n].sampler)
    ensures forall k :: 0 <= k < |log| ==> IsFedBefore(states, events, n, log[k])
  {
    hide Inv;
    hide OnCongestion;
    hide Allowed;
    hide AckEpochs.Step;
    if n == 0 {
      assert states[0] == InitialBbr(c, datagram);
      return [];
    }
    var b, e, d := states[n - 1], events[n - 1], states[n];
    var past := TrackerIsFed(c, datagram, states, events, n - 1);
    log := past;
    AlwaysInv(c, datagram, states, events, n - 1);
    assert Follows(b, e, states[n - 1 + 1]);
    if e.Congested? {
      EventOnTracker(b, e.congestion);
      if d.sampler.totalBytesAcked > b.sampler.totalBytesAcked {
        var fed := AckEventAt(b, e.congestion, d);
        log := past + [fed];
        assert log[..|past|] == past;
        assert IsFedBy(states, events, n - 1, fed);
      }
    } else {
      QuietOnTracker(b, e);
    }
    forall k | 0 <= k < |log| ensures IsFedBefore(states, events, n, log[k]) {
      if k < |past| {
        var m :| 0 <= m < n - 1 && IsFedBy(states, events, m, past[k]);
        assert IsFedBy(states, events, m, log[k]);
      } else {
        assert IsFedBy(states, events, n - 1, log[k]);
      }
    }
  }

  ghost predicate IsFedBefore(states: seq<Bbr>, events: seq<Event>, n: nat, x: AckEpochs.AckEvent)
    requires |states| == |events| + 1 && n <= |events|
  {
    exists m :: 0 <= m < n && IsFedBy(states, events, m, x)
  }

  ghost predicate IsFedBy(states: seq<Bbr>, events: seq<Event>, m: nat, x: AckEpochs.AckEvent)
    requires |states| == |events| + 1 && m < |events|
  {
    var b, c := states[m], states[m + 1];
    && HasAcks(events[m]) && c.sampler.totalBytesAcked >= b.sampler.ackedAfterLastEvent
    && x == AckEventAt(b, events[m].congestion, c)
  }
}
