/** Pacing inside the BBR sender: when its send loop can get stuck, and when it cannot. */
module BbrPacing {
  import opened Common
  import opened SamplerModel
  import opened BbrModel
  import opened BbrProofs
  import SP = SamplerProofs
  import Pacing

  // ---------- Rates ----------

  /** The pacer's rate is the gain times the estimate, from bits to whole bytes, but at least 64 kB/s. */
  lemma PacerRateIsScaled(estimate: Bandwidth, gain: real)
    requires gain >= 0.0
    ensures var rate, bits := BandwidthForPacer(estimate, gain), gain * estimate as real;
            && rate >= MIN_BPS && bits < 8.0 * (rate as real + 1.0)
            && (rate > MIN_BPS ==> 8.0 * rate as real <= bits)
  {
    var bits := estimate as real * gain;
    assert bits >= 0.0;
    assert bits == gain * estimate as real;
  }

  /** On every run the pacer's rate is twice the bandwidth estimate in bytes per second, but at least 64 kB/s, and each packet
      takes its size from the pacer's budget at that rate; nothing else but a new datagram size changes the pacer. */
  lemma PacerFollowsEstimate(c: Config, datagram: nat, states: seq<Bbr>, events: seq<Event>, n: nat)
    requires IsRun(c, datagram, states, events) && n < |events|
    ensures PacerRate(states[n]) == Max(MIN_BPS, states[n].maxBandwidth.best.sample / 4)
    ensures var b, d := states[n], states[n + 1];
            d.pacer == match events[n]
                       case Sent(time, _, _, bytes, _) =>
                         Pacing.Sent(b.pacer, Max(MIN_BPS, b.maxBandwidth.best.sample / 4), time, bytes)
                       case Congested(_) => b.pacer
                       case DatagramSize(size) => b.pacer.(datagram := size)
  {
    AlwaysInv(c, datagram, states, events, n);
    assert Follows(states[n], events[n], states[n + 1]);
    QuarterOfEstimate(states[n]);
    StepOnPacer(states[n], events[n]);
  }

  lemma QuarterOfEstimate(b: Bbr)
    requires Inv(b)
    ensures PacerRate(b) == Max(MIN_BPS, b.maxBandwidth.best.sample / 4)
  {
    hide SP.Inv;
    WholeQuarter(b.maxBandwidth.best.sample);
  }

  lemma WholeQuarter(estimate: Bandwidth)
    requires estimate % 8 == 0
    ensures Trunc(estimate as real * CWND_GAIN / 8.0) == estimate / 4
  {
    var k := estimate / 8;
    assert estimate == 8 * k && estimate / 4 == 2 * k;
    assert estimate as real == 8.0 * k as real;
    assert estimate as real * CWND_GAIN / 8.0 == (2 * k) as real;
  }

  lemma StepOnPacer(b: Bbr, e: Event)
    requires Allowed(b, e)
    ensures Step(b, e).pacer == match e
                                case Sent(time, _, _, bytes, _) => Pacing.Sent(b.pacer, PacerRate(b), time, bytes)
                                case Congested(_) => b.pacer
                                case DatagramSize(size) => b.pacer.(datagram := size)
  {
    hide SamplerOutcome;
    hide BandwidthForPacer;
    hide Pacing.Sent;
  }

  /** What one event makes of the pacing rate, exactly: at full bandwidth it is the gain of the mode times the estimate,
      before that it never falls below that, and the first rate is the initial window over the minimum RTT if there is one.
      Without an estimate the rate is kept. */
  lemma StepOnPacing(b: Bbr, e: Event)
    requires Inv(b) && Allowed(b, e)
    ensures var c := Step(b, e);
            var estimate := c.maxBandwidth.best.sample;
            if !e.Congested? || estimate == 0 then c.pacingRate == b.pacingRate
            else
              var rate := (GainOf(c.modes.mode, c.modes.cycleOffset) * estimate as real).Floor;
              c.pacingRate ==
                if c.full.reached then rate
                else if b.pacingRate == 0 && e.congestion.statsRtt != 0
                then BandwidthFromDelta(c.config.initialWindow, e.congestion.statsRtt)
                else Max(b.pacingRate, rate)
  {
    hide SP.Inv;
    hide OnCongestion;
    StepKeepsInv(b, e);
    if e.Congested? {
      EventOnPacing(b, e.congestion);
      GainTimesEstimate(Step(b, e).modes, Step(b, e).maxBandwidth.best.sample);
      hide *;
    }
  }

  lemma EventOnPacing(b: Bbr, e: Congestion)
    requires HasPackets(e)
    ensures var c := OnCongestion(b, e);
            && c.config == b.config
            && c.pacingRate == NextPacingRate(b.pacingRate, c.modes.pacingGain, c.maxBandwidth.best.sample, c.full.reached,
                                              b.config.initialWindow, e.statsRtt)
  {
    hide SamplerOutcome;
    hide PathAfter;
    hide FullAfter;
    hide ModesBeforeStay;
    hide ModesAfter;
    hide NextPacingRate;
    hide NextWindow;
    hide NextRecoveryWindow;
    hide RecoveryStep;
    hide RoundsAfter;
    hide InFlightAfter;
    hide IsRoundStart;
    hide TargetAt;
  }

  lemma GainTimesEstimate(m: Modes, estimate: Bandwidth)
    requires m.pacingGain == GainOf(m.mode, m.cycleOffset)
    ensures Scale(m.pacingGain, estimate) == (GainOf(m.mode, m.cycleOffset) * estimate as real).Floor
  {
    assert m.pacingGain * estimate as real >= 0.0;
  }

  /** On every run, after every event at full bandwidth with an estimate, the pacing rate is the gain of the mode, and of the
      phase of its cycle, times the estimate. */
  lemma PacingFollowsEstimate(c: Config, datagram: nat, states: seq<Bbr>, events: seq<Event>, i: nat)
    requires IsRun(c, datagram, states, events) && i < |events| && events[i].Congested?
    requires states[i + 1].full.reached && states[i + 1].maxBandwidth.best.sample > 0
    ensures var d := states[i + 1];
            d.pacingRate == (GainOf(d.modes.mode, d.modes.cycleOffset) * d.maxBandwidth.best.sample as real).Floor
  {
    hide Inv;
    hide Step;
    hide Allowed;
    AlwaysInv(c, datagram, states, events, i);
    assert Follows(states[i], events[i], states[i + 1]);
    StepOnPacing(states[i], events[i]);
  }

  // ---------- Stalls ----------

  /** The state that the source's send loop must not get into: no budget, and no alarm that is still to ring. */
  predicate Stalls(b: Bbr, now: Time) { !HasPacingBudget(b, now) && TimeUntilSend(b) <= now }

  /** The pacer knows the sender's datagram size: it was small enough to begin with, or the size has been set since. */
  ghost predicate SizeIsKnown(c: Config, datagram: nat, events: seq<Event>, n: nat)
    requires n <= |events|
  {
    datagram <= c.initialPacketSize || exists k :: 0 <= k < n && events[k].DatagramSize?
  }

  lemma StepOnSizes(b: Bbr, e: Event)
    requires Allowed(b, e)
    ensures var c := Step(b, e);
            if e.DatagramSize? then c.datagram == c.pacer.datagram
            else c.datagram == b.datagram && c.pacer.datagram == b.pacer.datagram
  {
    hide SamplerOutcome;
  }

  lemma {:induction false} PacerCoversDatagram(c: Config, datagram: nat, states: seq<Bbr>, events: seq<Event>, n: nat)
    requires IsRun(c, datagram, states, events) && n < |states| && SizeIsKnown(c, datagram, events, n)
    ensures states[n].datagram <= states[n].pacer.datagram
  {
    hide Step;
    hide Allowed;
    if n > 0 {
      assert Follows(states[n - 1], events[n - 1], states[n - 1 + 1]);
      StepOnSizes(states[n - 1], events[n - 1]);
      if !events[n - 1].DatagramSize? {
        PacerCoversDatagram(c, datagram, states, events, n - 1);
      }
    }
  }

  /** The pacer's arithmetic is in range, the clock has not run backwards, and the silence since the last transmission is
      not so long that the refill has wrapped beyond the pacer's guard. */
  predicate PacesInRange(b: Bbr, now: Time) {
    && now >= b.pacer.lastSent
    && Pacing.InRange(b.pacer, PacerRate(b)) && Pacing.GuardHolds(b.pacer, PacerRate(b), now)
  }

  /** The sender never stalls: whenever there is no budget for a datagram, the pacer's alarm is still to ring. */
  lemma PacerNeverStalls(c: Config, datagram: nat, states: seq<Bbr>, events: seq<Event>, n: nat, now: Time)
    requires IsRun(c, datagram, states, events) && n < |states| && SizeIsKnown(c, datagram, events, n)
    requires PacesInRange(states[n], now)
    ensures !Stalls(states[n], now)
  {
    PacerCoversDatagram(c, datagram, states, events, n);
    if Stalls(states[n], now) {
      Pacing.BudgetLasts(states[n].pacer, PacerRate(states[n]), now);
    }
  }

  /** A burst: packets of at most a datagram each, numbered and counted in flight one after the other, all sent at one
      moment, and each at a time when the sender has a pacing budget. */
  ghost predicate IsBurst(states: seq<Bbr>, events: seq<Event>, datagram: nat, time: Time)
    requires |states| == |events| + 1
  {
    forall k :: 0 <= k < |events| ==>
      var e := events[k];
      && e.Sent? && e.time == time && e.number == k && 0 < e.bytes <= datagram
      && e.bytesInFlight == BytesSent(events[..k]) && HasPacingBudget(states[k], time)
  }

  ghost function BytesSent(events: seq<Event>): nat {
    if events == [] then 0
    else
      var e := events[|events| - 1];
      BytesSent(events[..|events| - 1]) + if e.Sent? then e.bytes else 0
  }

  /** A state inside a burst from a fresh sender: the pacer still has room for a packet of its own size. */
  ghost predicate InBurst(c: Config, datagram: nat, b: Bbr, time: Time, sent: nat) {
    && b.lastSent == sent - 1 && b.sampler.lastAckedAckTime <= time
    && b.datagram == datagram && b.maxBandwidth == InitialBbr(c, datagram).maxBandwidth
    && b.modes.windowGain == CWND_GAIN
    && b.pacer.datagram == c.initialPacketSize <= b.pacer.budget && b.pacer.minDelay == c.minPacingDelay
    && (b.pacer.lastSent == NO_TIME || b.pacer.lastSent == time)
    && c.initialPacketSize <= Room(b, time)
  }

  ghost function Room(b: Bbr, time: Time): nat { Pacing.Budget(b.pacer, PacerRate(b), time) }

  lemma BurstStep(c: Config, datagram: nat, b: Bbr, time: Time, sent: nat, inFlight: nat, bytes: nat)
    requires InBurst(c, datagram, b, time, sent) && time > NO_TIME
    requires 0 < bytes <= Room(b, time) - c.initialPacketSize
    ensures var d := Step(b, Sent(time, inFlight, sent, bytes, true));
            InBurst(c, datagram, d, time, sent + 1) && Room(d, time) == Room(b, time) - bytes
  {
    SendTakesBudget(b.pacer, PacerRate(b), time, bytes);
    hide Snapshot;
    hide BandwidthForPacer;
    hide Pacing.Sent;
    hide Pacing.Budget;
  }

  /** At one moment, each packet takes its size from the budget. */
  lemma SendTakesBudget(p: Pacing.State, rate: nat, time: Time, bytes: nat)
    requires time > NO_TIME && (p.lastSent == NO_TIME || p.lastSent == time) && bytes <= Pacing.Budget(p, rate, time)
    ensures var q := Pacing.Sent(p, rate, time, bytes);
            && q == p.(budget := Pacing.Budget(p, rate, time) - bytes, lastSent := time)
            && Pacing.Budget(q, rate, time) == q.budget
  {
    var q := Pacing.Sent(p, rate, time, bytes);
    assert Pacing.MaxBurst(q, rate) == Pacing.MaxBurst(p, rate);
    hide Pacing.MaxBurst;
    assert rate * (time - time) == 0;
  }

  lemma StartsBurst(c: Config, datagram: nat, time: Time)
    ensures InBurst(c, datagram, InitialBbr(c, datagram), time, 0)
  {
  }

  /** As long as there is a budget, the burst goes on with a packet that leaves at least the pacer's own size. */
  lemma {:induction false} BurstGoesOn(c: Config, datagram: nat, states: seq<Bbr>, events: seq<Event>, time: Time)
    returns (states': seq<Bbr>, events': seq<Event>)
    requires IsRun(c, datagram, states, events) && IsBurst(states, events, datagram, time)
    requires datagram > c.initialPacketSize && time > NO_TIME
    requires InBurst(c, datagram, states[|events|], time, |events|)
    ensures IsRun(c, datagram, states', events') && IsBurst(states', events', datagram, time)
    ensures InBurst(c, datagram, states'[|events'|], time, |events'|) && !HasPacingBudget(states'[|events'|], time)
    decreases Room(states[|events|], time)
  {
    hide InBurst;
    hide IsRun;
    hide IsBurst;
    hide HasPacingBudget;
    hide Step;
    RunHasEvents(c, datagram, states, events);
    var b, n := states[|events|], |events|;
    if !HasPacingBudget(b, time) {
      return states, events;
    }
    HasRoom(c, datagram, b, time, n);
    var bytes := Min(datagram, Room(b, time) - c.initialPacketSize);
    var e := Sent(time, BytesSent(events), n, bytes, true);
    BurstStep(c, datagram, b, time, n, BytesSent(events), bytes);
    MaySend(c, datagram, b, time, n, BytesSent(events), bytes);
    ExtendRun(c, datagram, states, events, e);
    ExtendBurst(states, events, datagram, time, e);
    states', events' := BurstGoesOn(c, datagram, states + [Step(b, e)], events + [e], time);
  }

  lemma HasRoom(c: Config, datagram: nat, b: Bbr, time: Time, sent: nat)
    requires InBurst(c, datagram, b, time, sent) && HasPacingBudget(b, time)
    ensures Room(b, time) >= datagram
  {
  }

  lemma ExtendRun(c: Config, datagram: nat, states: seq<Bbr>, events: seq<Event>, e: Event)
    requires IsRun(c, datagram, states, events) && Allowed(states[|events|], e)
    ensures IsRun(c, datagram, states + [Step(states[|events|], e)], events + [e])
  {
    hide Step;
    hide InitialBbr;
    var states', events' := states + [Step(states[|events|], e)], events + [e];
    forall k | 0 <= k < |events'| ensures Follows(states'[k], events'[k], states'[k + 1]) {
      if k < |events| {
        assert Follows(states[k], events[k], states[k + 1]);
      }
    }
  }

  lemma ExtendBurst(states: seq<Bbr>, events: seq<Event>, datagram: nat, time: Time, e: Event)
    requires |states| == |events| + 1 && IsBurst(states, events, datagram, time) && HasPacingBudget(states[|events|], time)
    requires e.Sent? && e.time == time && e.number == |events| && 0 < e.bytes <= datagram
    requires e.bytesInFlight == BytesSent(events)
    ensures IsBurst(states + [Step(states[|events|], e)], events + [e], datagram, time)
  {
    hide Step;
    hide HasPacingBudget;
    hide BytesSent;
    var events' := events + [e];
    assert forall k :: 0 <= k < |events| ==> events'[k] == events[k] && events'[..k] == events[..k];
    assert events'[..|events|] == events;
  }

  lemma MaySend(c: Config, datagram: nat, b: Bbr, time: Time, sent: nat, inFlight: nat, bytes: nat)
    requires InBurst(c, datagram, b, time, sent)
    ensures Allowed(b, Sent(time, inFlight, sent, bytes, true))
  {
  }

  /** Without that condition it can stall: with an initial datagram larger than the pacer's, a burst of packets of at most
      a datagram each, every one sent within the pacing budget, leaves neither a budget nor an alarm to wait for. */
  lemma LargerDatagramStalls(c: Config, datagram: nat, time: Time) returns (states: seq<Bbr>, events: seq<Event>)
    requires ConfigOk(c) && datagram > c.initialPacketSize && time > NO_TIME
    ensures IsRun(c, datagram, states, events) && IsBurst(states, events, datagram, time)
    ensures var b := states[|events|];
            && Stalls(b, time) && b.pacer.lastSent <= time
            && b.pacer.datagram == c.initialPacketSize && b.pacer.minDelay == c.minPacingDelay
            && PacerRate(b) == MIN_BPS
  {
    hide InitialBbr;
    StartsBurst(c, datagram, time);
    assert IsRun(c, datagram, [InitialBbr(c, datagram)], []);
    states, events := BurstGoesOn(c, datagram, [InitialBbr(c, datagram)], [], time);
    BurstIsSlow(c, datagram, states[|events|], time, |events|);
  }

  lemma BurstIsSlow(c: Config, datagram: nat, b: Bbr, time: Time, sent: nat)
    requires InBurst(c, datagram, b, time, sent)
    ensures PacerRate(b) == MIN_BPS && Pacing.TimeUntilSend(b.pacer, MIN_BPS) == NO_TIME
  {
  }

  /** No run of the configuration ever stalls while the pacer's arithmetic is in range. */
  ghost predicate IsStallFree(c: Config, datagram: nat) {
    forall states: seq<Bbr>, events: seq<Event>, n: nat, now: Time ::
      IsRun(c, datagram, states, events) && n < |states| && PacesInRange(states[n], now) ==> !Stalls(states[n], now)
  }

  /** The configurations that never stall are exactly those whose datagram is no larger than the pacer assumes. */
  lemma StallFreeExactly(c: Config, datagram: nat)
    requires ConfigOk(c) && Pacing.InRange(InitialBbr(c, datagram).pacer, MIN_BPS)
    ensures IsStallFree(c, datagram) <==> datagram <= c.initialPacketSize
  {
    hide IsRun;
    hide Stalls;
    if datagram <= c.initialPacketSize {
      forall states: seq<Bbr>, events: seq<Event>, n: nat, now: Time |
        IsRun(c, datagram, states, events) && n < |states| && PacesInRange(states[n], now)
        ensures !Stalls(states[n], now)
      {
        RunHasEvents(c, datagram, states, events);
        PacerNeverStalls(c, datagram, states, events, n, now);
      }
    } else {
      var states, events := LargerDatagramStalls(c, datagram, 1);
      RunHasEvents(c, datagram, states, events);
      var b := states[|events|];
      assert PacesInRange(b, 1) by {
        assert MIN_BPS * (1 - b.pacer.lastSent) < TWO_TO_THE_63;
      }
    }
  }

  lemma RunHasEvents(c: Config, datagram: nat, states: seq<Bbr>, events: seq<Event>)
    requires IsRun(c, datagram, states, events)
    ensures |states| == |events| + 1
  {
  }
}
