/** The BBR sender as an object: the fields of the source, updated in the source's order. */
module BbrSenders {
  import opened Common
  import opened WindowedFilters
  import opened SamplerModel
  import opened Samplers
  import opened BbrModel
  import Pacing
  import BbrProofs
  import SamplerProofs

  class BbrSender {
    const config: Config
    const pacer: Pacing.Pacer
    const sampler: BandwidthSampler
    const maxBandwidth: WindowedFilter<Bandwidth>
    var mode: Mode
    var roundTripCount: nat
    var lastSentPacket: int
    var currentRoundTripEnd: int
    var numLossEventsInRound: nat
    var bytesLostInRound: int
    var minRtt: int
    var minRttTimestamp: Time
    var congestionWindow: int
    var pacingRate: int
    var pacingGain: real
    var congestionWindowGain: real
    var cycleCurrentOffset: nat
    var lastCycleStart: Time
    var isAtFullBandwidth: bool
    var roundsWithoutBandwidthGain: nat
    var bandwidthAtLastRound: Bandwidth
    var exitingQuiescence: bool
    var exitProbeRttAt: Time
    var probeRttRoundPassed: bool
    var lastSampleIsAppLimited: bool
    var hasNoAppLimitedSample: bool
    var recoveryState: RecoveryState
    var endRecoveryAt: int
    var recoveryWindow: int
    var maxDatagramSize: nat
    var bytesInFlight: int

    ghost function ModesOf(): Modes
      reads this
    {
      Modes(mode, pacingGain, congestionWindowGain, cycleCurrentOffset, lastCycleStart, exitingQuiescence,
            exitProbeRttAt, probeRttRoundPassed)
    }

    ghost function FullOf(): FullBandwidth
      reads this
    {
      FullBandwidth(isAtFullBandwidth, roundsWithoutBandwidthGain, bandwidthAtLastRound)
    }

    ghost function RoundsOf(): Rounds
      reads this
    {
      Rounds(roundTripCount, currentRoundTripEnd)
    }

    ghost function RecoveryOf(): Recovery
      reads this
    {
      Recovery(recoveryState, endRecoveryAt, recoveryWindow)
    }

    ghost function LossesOf(): Losses
      reads this
    {
      Losses(numLossEventsInRound, bytesLostInRound)
    }

    ghost function LimitsOf(): Limits
      reads this
    {
      Limits(lastSampleIsAppLimited, hasNoAppLimitedSample)
    }

    ghost function MinRttOf(): MinRtt
      reads this
    {
      MinRtt(minRtt, minRttTimestamp)
    }

    ghost predicate Valid()
      reads this, maxBandwidth, sampler, sampler.Repr()
    {
      && this !in sampler.Repr() && maxBandwidth !in sampler.Repr() && pacer !in sampler.Repr()
      && sampler.Valid()
      && maxBandwidth.Valid() && maxBandwidth.rank == RATE && maxBandwidth.windowLength == BANDWIDTH_WINDOW
    }

    ghost function Abs(): Bbr
      requires Valid()
      reads this, maxBandwidth, pacer, sampler, sampler.Repr()
    {
      Bbr(config, ModesOf(), FullOf(), RoundsOf(), RecoveryOf(), LossesOf(), LimitsOf(), MinRttOf(), maxBandwidth.Abs(),
          sampler.Abs(), lastSentPacket, bytesInFlight, congestionWindow, pacingRate, maxDatagramSize, pacer.Abs())
    }

    constructor (config: Config, initialMaxDatagramSize: nat)
      ensures Valid() && fresh(maxBandwidth) && fresh(pacer) && fresh(sampler.Repr())
      ensures Abs() == InitialBbr(config, initialMaxDatagramSize)
    {
      hide BandwidthSampler.Valid;
      hide BandwidthSampler.Abs;
      hide InitialSampler;
      hide Same;
      hide WindowedFilter.Abs;
      hide Pacing.Pacer.Abs;
      this.config := config;
      pacer := new Pacing.Pacer(config.initialPacketSize, config.minPacingDelay);
      maxBandwidth := new WindowedFilter<Bandwidth>(BANDWIDTH_WINDOW, RATE, 0);
      sampler := new BandwidthSampler(BANDWIDTH_WINDOW);
      mode, pacingGain, congestionWindowGain := Startup, HIGH_GAIN, CWND_GAIN;
      roundTripCount, lastSentPacket, currentRoundTripEnd := 0, INVALID_PACKET, INVALID_PACKET;
      numLossEventsInRound, bytesLostInRound, minRtt, minRttTimestamp := 0, 0, 0, NO_TIME;
      congestionWindow, pacingRate := config.initialWindow, 0;
      cycleCurrentOffset, lastCycleStart := 0, NO_TIME;
      isAtFullBandwidth, roundsWithoutBandwidthGain, bandwidthAtLastRound := false, 0, 0;
      exitingQuiescence, exitProbeRttAt, probeRttRoundPassed := false, NO_TIME, false;
      lastSampleIsAppLimited, hasNoAppLimitedSample := false, false;
      recoveryState, endRecoveryAt, recoveryWindow := NotInRecovery, INVALID_PACKET, config.maxWindow;
      maxDatagramSize, bytesInFlight := initialMaxDatagramSize, 0;
      new;
      assert ModesOf() == InitialBbr(config, initialMaxDatagramSize).modes;
    }

    // ---------- Rounds and recovery ----------

    method UpdateRoundTripCounter(lastAckedPacket: int) returns (started: bool)
      modifies `roundTripCount, `currentRoundTripEnd
      ensures started == StartsRound(old(RoundsOf()), lastAckedPacket)
      ensures RoundsOf() == NextRounds(old(RoundsOf()), lastSentPacket, lastAckedPacket)
    {
      if currentRoundTripEnd == INVALID_PACKET || lastAckedPacket > currentRoundTripEnd {
        roundTripCount := roundTripCount + 1;
        currentRoundTripEnd := lastSentPacket;
        return true;
      }
      return false;
    }

    method UpdateRecoveryState(lastAckedPacket: int, hasLosses: bool, isRoundStart: bool)
      modifies `recoveryState, `endRecoveryAt, `recoveryWindow, `currentRoundTripEnd
      ensures RecoveryOf() == NextRecovery(old(RecoveryOf()), isAtFullBandwidth, lastSentPacket, lastAckedPacket,
                                           hasLosses, isRoundStart)
      ensures currentRoundTripEnd == if EntersRecovery(old(RecoveryOf()), isAtFullBandwidth, hasLosses)
                                     then lastSentPacket else old(currentRoundTripEnd)
    {
      if !isAtFullBandwidth {
        return;
      }
      if hasLosses {
        endRecoveryAt := lastSentPacket;
      }
      if recoveryState == NotInRecovery {
        if hasLosses {
          recoveryState := Conservation;
          recoveryWindow := 0;
          currentRoundTripEnd := lastSentPacket;
        }
        return;
      }
      if recoveryState == Conservation && isRoundStart {
        recoveryState := Growth;
      }
      if !hasLosses && lastAckedPacket > endRecoveryAt {
        recoveryState := NotInRecovery;
      }
    }

    method CalculateRecoveryWindow(bytesAcked: int, bytesLost: int)
      modifies `recoveryWindow
      ensures RecoveryOf() == NextRecoveryWindow(old(RecoveryOf()), config.minWindow, maxDatagramSize, bytesInFlight,
                                                 bytesAcked, bytesLost)
    {
      if recoveryState == NotInRecovery {
        return;
      }
      if recoveryWindow == 0 {
        recoveryWindow := bytesInFlight + bytesAcked;
        recoveryWindow := Max(config.minWindow, recoveryWindow);
        return;
      }
      if recoveryWindow >= bytesLost {
        recoveryWindow := recoveryWindow - bytesLost;
      } else {
        recoveryWindow := maxDatagramSize;
      }
      if recoveryState == Growth {
        recoveryWindow := recoveryWindow + bytesAcked;
      }
      recoveryWindow := Max(recoveryWindow, bytesInFlight + bytesAcked);
      recoveryWindow := Max(config.minWindow, recoveryWindow);
    }

    // ---------- The path model ----------

    method MaybeUpdateMinRtt(now: Time, sampleMinRtt: int) returns (minRttExpired: bool)
      requires sampleMinRtt != INF_RTT
      modifies `minRtt, `minRttTimestamp
      ensures minRttExpired == Expires(old(MinRttOf()), now, sampleMinRtt)
      ensures MinRttOf() == NextMinRtt(old(MinRttOf()), now, sampleMinRtt)
    {
      minRttExpired := minRtt != 0 && now > minRttTimestamp + MIN_RTT_EXPIRY;
      if minRttExpired || sampleMinRtt < minRtt || minRtt == 0 {
        minRtt := sampleMinRtt;
        minRttTimestamp := now;
      }
    }

    /** `getTargetCongestionWindow`. */
    method GetTargetCongestionWindow(gain: real, statsRtt: nat) returns (window: int)
      requires maxBandwidth.Valid()
      ensures window == TargetWindow(config, GetMinRtt(minRtt, statsRtt), maxBandwidth.Abs().best.sample, gain)
    {
      hide Scale;
      hide Bdp;
      hide GetMinRtt;
      var bdp := Bdp(GetMinRtt(minRtt, statsRtt), maxBandwidth.GetBest());
      window := Scale(gain, bdp);
      if window == 0 {
        window := Scale(gain, config.initialWindow);
      }
      window := Max(window, config.minWindow);
    }

    method CheckIfFullBandwidthReached(last: SendState)
      requires maxBandwidth.Valid()
      modifies `isAtFullBandwidth, `roundsWithoutBandwidthGain, `bandwidthAtLastRound
      ensures FullOf() == CheckedFullBandwidth(old(FullOf()), maxBandwidth.Abs().best.sample, lastSampleIsAppLimited,
                                               TooMuchLoss(LossesOf(), last))
    {
      if lastSampleIsAppLimited {
        return;
      }
      var target := (bandwidthAtLastRound as real * STARTUP_GROWTH_TARGET).Floor;
      if maxBandwidth.GetBest() >= target {
        bandwidthAtLastRound := maxBandwidth.GetBest();
        roundsWithoutBandwidthGain := 0;
        return;
      }
      roundsWithoutBandwidthGain := roundsWithoutBandwidthGain + 1;
      var exit := ShouldExitStartupDueToLoss(last);
      if roundsWithoutBandwidthGain >= STARTUP_ROUNDS || exit {
        isAtFullBandwidth := true;
      }
    }

    method ShouldExitStartupDueToLoss(last: SendState) returns (exit: bool)
      ensures exit == TooMuchLoss(LossesOf(), last)
    {
      if numLossEventsInRound < STARTUP_FULL_LOSS_COUNT || !last.isValid {
        return false;
      }
      if last.bytesInFlight > 0 && bytesLostInRound > 0 {
        return bytesLostInRound > (last.bytesInFlight as real * LOSS_THRESHOLD).Floor;
      }
      return false;
    }

    // ---------- Modes ----------

    method EnterStartupMode()
      modifies `mode, `pacingGain, `congestionWindowGain
      ensures ModesOf() == EnterStartup(old(ModesOf()))
    {
      mode := Startup;
      pacingGain := HIGH_GAIN;
      congestionWindowGain := CWND_GAIN;
    }

    method EnterProbeBandwidthMode(now: Time, draw: nat)
      modifies `mode, `congestionWindowGain, `cycleCurrentOffset, `lastCycleStart, `pacingGain
      ensures ModesOf() == EnterProbeBw(old(ModesOf()), now, draw)
    {
      mode := ProbeBw;
      congestionWindowGain := CWND_GAIN;
      cycleCurrentOffset := draw % (GAIN_CYCLE_LENGTH - 1);
      if cycleCurrentOffset >= 1 {
        cycleCurrentOffset := cycleCurrentOffset + 1;
      }
      lastCycleStart := now;
      pacingGain := CycleGain(cycleCurrentOffset);
    }

    method UpdateGainCyclePhase(now: Time, priorInFlight: nat, hasLosses: bool, statsRtt: nat)
      requires maxBandwidth.Valid()
      modifies `cycleCurrentOffset, `lastCycleStart, `pacingGain
      ensures var rtt, best := GetMinRtt(minRtt, statsRtt), maxBandwidth.Abs().best.sample;
              ModesOf() == NextCycle(old(ModesOf()), now, rtt, hasLosses,
                                     priorInFlight < TargetWindow(config, rtt, best, old(pacingGain)),
                                     bytesInFlight <= TargetWindow(config, rtt, best, 1.0))
    {
      hide TargetWindow;
      var shouldAdvanceGainCycling := now > lastCycleStart + GetMinRtt(minRtt, statsRtt);
      var probeTarget := GetTargetCongestionWindow(pacingGain, statsRtt);
      if pacingGain > 1.0 && !hasLosses && priorInFlight < probeTarget {
        shouldAdvanceGainCycling := false;
      }
      var target := GetTargetCongestionWindow(1.0, statsRtt);
      if pacingGain < 1.0 && bytesInFlight <= target {
        shouldAdvanceGainCycling := true;
      }
      if shouldAdvanceGainCycling {
        cycleCurrentOffset := (cycleCurrentOffset + 1) % GAIN_CYCLE_LENGTH;
        lastCycleStart := now;
        pacingGain := CycleGain(cycleCurrentOffset);
      }
    }

    method MaybeExitStartupOrDrain(now: Time, statsRtt: nat, draw: nat)
      requires maxBandwidth.Valid()
      modifies `mode, `congestionWindowGain, `cycleCurrentOffset, `lastCycleStart, `pacingGain
      ensures var rtt, best := GetMinRtt(minRtt, statsRtt), maxBandwidth.Abs().best.sample;
              ModesOf() == LeaveStartupOrDrain(old(ModesOf()), isAtFullBandwidth,
                                               bytesInFlight <= TargetWindow(config, rtt, best, 1.0), now, draw)
    {
      hide TargetWindow;
      if mode == Startup && isAtFullBandwidth {
        mode := Drain;
        pacingGain := DRAIN_GAIN;
        congestionWindowGain := CWND_GAIN;
      }
      var target := GetTargetCongestionWindow(1.0, statsRtt);
      if mode == Drain && bytesInFlight <= target {
        EnterProbeBandwidthMode(now, draw);
      }
    }

    /** The first part of `maybeEnterOrExitProbeRtt`. */
    method EnterProbeRttMode(minRttExpired: bool)
      modifies `mode, `pacingGain, `exitProbeRttAt
      ensures ModesOf() == MaybeEnterProbeRtt(old(ModesOf()), minRttExpired)
    {
      if minRttExpired && !exitingQuiescence && mode != ProbeRtt {
        mode := ProbeRtt;
        pacingGain := 1.0;
        exitProbeRttAt := NO_TIME;
      }
    }

    method MaybeEnterOrExitProbeRtt(now: Time, isRoundStart: bool, minRttExpired: bool, draw: nat)
      requires sampler.Valid() && this !in sampler.Repr() && maxBandwidth !in sampler.Repr() && pacer !in sampler.Repr()
      modifies `mode, `pacingGain, `congestionWindowGain, `cycleCurrentOffset, `lastCycleStart, `exitingQuiescence
      modifies `exitProbeRttAt, `probeRttRoundPassed, `minRttTimestamp, sampler`isAppLimited, sampler`endOfAppLimitedPhase
      ensures sampler.Valid() && sampler.Repr() == old(sampler.Repr())
      ensures var entered := MaybeEnterProbeRtt(old(ModesOf()), minRttExpired);
              var low := bytesInFlight < config.minWindow + config.packetBuffer;
              && ModesOf() == StayInProbeRtt(entered, isAtFullBandwidth, low, now, isRoundStart, draw)
                              .(exitingQuiescence := false)
              && minRttTimestamp == (if LeavesProbeRtt(entered, now, isRoundStart) then now else old(minRttTimestamp))
              && sampler.Abs() == (if entered.mode == ProbeRtt then OnAppLimited(old(sampler.Abs())) else old(sampler.Abs()))
    {
      hide MaybeEnterProbeRtt;
      hide BandwidthSampler.Valid;
      hide BandwidthSampler.Abs;
      hide OnAppLimited;
      hide StayInProbeRtt;
      hide LeavesProbeRtt;
      EnterProbeRttMode(minRttExpired);
      if mode == ProbeRtt {
        sampler.OnAppLimited();
      }
      HandleProbeRtt(now, isRoundStart, draw);
    }

    /** The rest of `maybeEnterOrExitProbeRtt`. */
    method HandleProbeRtt(now: Time, isRoundStart: bool, draw: nat)
      modifies `mode, `pacingGain, `congestionWindowGain, `cycleCurrentOffset, `lastCycleStart, `exitingQuiescence
      modifies `exitProbeRttAt, `probeRttRoundPassed, `minRttTimestamp
      ensures var low := bytesInFlight < config.minWindow + config.packetBuffer;
              ModesOf() == StayInProbeRtt(old(ModesOf()), isAtFullBandwidth, low, now, isRoundStart, draw)
                           .(exitingQuiescence := false)
      ensures minRttTimestamp == if LeavesProbeRtt(old(ModesOf()), now, isRoundStart) then now else old(minRttTimestamp)
    {
      if mode == ProbeRtt {
        if exitProbeRttAt == NO_TIME {
          if bytesInFlight < config.minWindow + config.packetBuffer {
            exitProbeRttAt := now + PROBE_RTT_TIME;
            probeRttRoundPassed := false;
          }
        } else {
          if isRoundStart {
            probeRttRoundPassed := true;
          }
          if now >= exitProbeRttAt && probeRttRoundPassed {
            minRttTimestamp := now;
            if !isAtFullBandwidth {
              EnterStartupMode();
            } else {
              EnterProbeBandwidthMode(now, draw);
            }
          }
        }
      }
      exitingQuiescence := false;
    }

    // ---------- Rates and windows ----------

    method CalculatePacingRate(statsRtt: nat)
      requires maxBandwidth.Valid()
      modifies `pacingRate
      ensures pacingRate == NextPacingRate(old(pacingRate), pacingGain, maxBandwidth.Abs().best.sample, isAtFullBandwidth,
                                           config.initialWindow, statsRtt)
    {
      hide BandwidthFromDelta;
      hide Scale;
      if maxBandwidth.GetBest() == 0 {
        return;
      }
      var targetRate := Scale(pacingGain, maxBandwidth.GetBest());
      if isAtFullBandwidth {
        pacingRate := targetRate;
        return;
      }
      if pacingRate == 0 && statsRtt != 0 {
        pacingRate := BandwidthFromDelta(config.initialWindow, statsRtt);
        return;
      }
      pacingRate := Max(pacingRate, targetRate);
    }

    method CalculateCongestionWindow(bytesAcked: int, statsRtt: nat)
      requires maxBandwidth.Valid() && sampler.Valid()
      modifies `congestionWindow
      ensures congestionWindow == NextWindow(config, old(congestionWindow), mode, isAtFullBandwidth,
                                             TargetWindow(config, GetMinRtt(minRtt, statsRtt),
                                                          maxBandwidth.Abs().best.sample, congestionWindowGain),
                                             sampler.Abs().tracker.heights.best.sample.extraAcked,
                                             bytesAcked, sampler.Abs().totalBytesAcked)
    {
      hide TargetWindow;
      if mode == ProbeRtt {
        return;
      }
      var targetWindow := GetTargetCongestionWindow(congestionWindowGain, statsRtt);
      if isAtFullBandwidth {
        targetWindow := targetWindow + sampler.MaxAckHeight();
      }
      if isAtFullBandwidth {
        congestionWindow := Min(targetWindow, congestionWindow + bytesAcked);
      } else if congestionWindow < targetWindow || sampler.TotalBytesAcked() < config.initialWindow {
        congestionWindow := congestionWindow + bytesAcked;
      }
      congestionWindow := Max(congestionWindow, config.minWindow);
      congestionWindow := Min(congestionWindow, config.maxWindow);
    }

    // ---------- Calls ----------

    /** The reported window, which between calls is always within its limits. */
    method GetCongestionWindow() returns (window: int)
      requires Valid()
      ensures window == BbrModel.GetCongestionWindow(Abs())
      ensures BbrProofs.Inv(Abs()) ==> config.minWindow <= window <= config.maxWindow
    {
      hide BbrProofs.Inv;
      if BbrProofs.Inv(Abs()) {
        BbrProofs.ReportedWindowIsBounded(Abs());
      }
      if mode == ProbeRtt {
        return config.minWindow;
      }
      if recoveryState != NotInRecovery {
        return Min(congestionWindow, recoveryWindow);
      }
      return congestionWindow;
    }

    method HasPacingBudget(now: Time) returns (ok: bool)
      requires Valid()
      ensures ok == BbrModel.HasPacingBudget(Abs(), now)
    {
      var budget := pacer.GetBudget(now, BandwidthForPacer(maxBandwidth.GetBest(), congestionWindowGain));
      ok := budget >= maxDatagramSize;
    }

    method TimeUntilSend() returns (t: Time)
      requires Valid()
      ensures t == BbrModel.TimeUntilSend(Abs())
    {
      t := pacer.GetTimeUntilSend(BandwidthForPacer(maxBandwidth.GetBest(), congestionWindowGain));
    }

    method SetMaxDatagramSize(s: nat)
      requires Valid() && s >= maxDatagramSize
      modifies `maxDatagramSize, pacer`maxDatagramSize
      ensures Valid() && Abs() == BbrModel.SetMaxDatagramSize(old(Abs()), s)
    {
      hide BandwidthSampler.Valid;
      hide BandwidthSampler.Abs;
      maxDatagramSize := s;
      pacer.SetMaxDatagramSize(s);
    }

    /** What `OnPacketSent` does before it calls the sampler. */
    method RecordSending(sentTime: Time, bytesInFlight: nat, packetNumber: nat, bytes: nat)
      requires Valid()
      modifies `lastSentPacket, `bytesInFlight, `exitingQuiescence, pacer
      ensures Valid() && sampler.Repr() == old(sampler.Repr()) && sampler.Abs() == old(sampler.Abs())
      ensures pacer.Abs() == Pacing.Sent(old(pacer.Abs()),
                                         BandwidthForPacer(maxBandwidth.Abs().best.sample, congestionWindowGain),
                                         sentTime, bytes)
      ensures lastSentPacket == packetNumber && this.bytesInFlight == bytesInFlight
      ensures exitingQuiescence == (old(exitingQuiescence) || bytesInFlight == 0)
    {
      hide BandwidthSampler.Valid;
      hide BandwidthSampler.Abs;
      hide BandwidthForPacer;
      hide Pacing.Sent;
      pacer.SentPacket(sentTime, bytes, BandwidthForPacer(maxBandwidth.GetBest(), congestionWindowGain));
      lastSentPacket := packetNumber;
      this.bytesInFlight := bytesInFlight;
      if bytesInFlight == 0 {
        exitingQuiescence := true;
      }
    }

    method OnPacketSent(sentTime: Time, bytesInFlight: nat, packetNumber: nat, bytes: nat, isRetransmittable: bool)
      requires Valid() && packetNumber > lastSentPacket == sampler.lastSentPacket
      modifies `lastSentPacket, `bytesInFlight, `exitingQuiescence, pacer, sampler.Repr()
      ensures Valid() && fresh(sampler.Repr() - old(sampler.Repr()))
      ensures Abs() == OnSent(old(Abs()), sentTime, bytesInFlight, packetNumber, bytes, isRetransmittable)
    {
      hide BandwidthSampler.Valid;
      hide BandwidthSampler.Abs;
      hide BandwidthForPacer;
      hide WindowedFilter.Abs;
      hide Pacing.Pacer.Abs;
      hide Pacing.Sent;
      hide SamplerModel.OnPacketSent;
      RecordSending(sentTime, bytesInFlight, packetNumber, bytes);
      sampler.OnPacketSent(sentTime, packetNumber, bytes, bytesInFlight, isRetransmittable);
    }

    /** `maybeApplimited`. */
    method MaybeAppLimited(priorInFlight: nat)
      requires Valid()
      modifies sampler`isAppLimited, sampler`endOfAppLimitedPhase
      ensures Valid() && sampler.Repr() == old(sampler.Repr())
      ensures sampler.Abs() == if FallsIdle(old(Abs()), priorInFlight) then OnAppLimited(old(sampler.Abs()))
                               else old(sampler.Abs())
    {
      hide BandwidthSampler.Valid;
      hide BandwidthSampler.Abs;
      hide OnAppLimited;
      var window := GetCongestionWindow();
      if priorInFlight >= window {
        return;
      }
      var availableBytes := window - priorInFlight;
      var drainLimited := mode == Drain && priorInFlight > window / 2;
      if !drainLimited || availableBytes > MAX_BURST_PACKETS * maxDatagramSize {
        sampler.OnAppLimited();
      }
    }

    /** The two loops that deduct acked and lost packets from the bytes in flight. */
    method DeductPackets(e: Congestion)
      modifies `bytesInFlight
      ensures bytesInFlight == InFlightAfter(e)
    {
      bytesInFlight := e.priorInFlight;
      for i := 0 to |e.acked|
        invariant bytesInFlight == e.priorInFlight - TotalBytes(e.acked[..i])
      {
        assert e.acked[..i + 1][..i] == e.acked[..i];
        bytesInFlight := bytesInFlight - e.acked[i].bytes;
      }
      assert e.acked[..|e.acked|] == e.acked;
      for i := 0 to |e.lost|
        invariant bytesInFlight == e.priorInFlight - TotalBytes(e.acked) - TotalBytes(e.lost[..i])
      {
        assert e.lost[..i + 1][..i] == e.lost[..i];
        bytesInFlight := bytesInFlight - e.lost[i].bytes;
      }
      assert e.lost[..|e.lost|] == e.lost;
    }

    /** The part of the event that only acks trigger: rounds and the state of recovery. */
    method HandleAcks(e: Congestion) returns (isRoundStart: bool)
      modifies `roundTripCount, `currentRoundTripEnd, `recoveryState, `endRecoveryAt, `recoveryWindow
      ensures e.acked == [] ==> !isRoundStart && RoundsOf() == old(RoundsOf()) && RecoveryOf() == old(RecoveryOf())
      ensures e.acked != [] ==>
                && isRoundStart == StartsRound(old(RoundsOf()), LastAcked(e))
                && RecoveryOf() == NextRecovery(old(RecoveryOf()), isAtFullBandwidth, lastSentPacket, LastAcked(e),
                                                HasLosses(e), isRoundStart)
                && var r := NextRounds(old(RoundsOf()), lastSentPacket, LastAcked(e));
                   RoundsOf() == if EntersRecovery(old(RecoveryOf()), isAtFullBandwidth, HasLosses(e))
                                 then r.(end := lastSentPacket) else r
    {
      hide NextRecovery;
      isRoundStart := false;
      if |e.acked| != 0 {
        var lastAckedPacket := e.acked[|e.acked| - 1].number;
        isRoundStart := UpdateRoundTripCounter(lastAckedPacket);
        UpdateRecoveryState(lastAckedPacket, |e.lost| != 0, isRoundStart);
      }
    }

    /** The event up to the point where the sampler is consulted. */
    method BeginEvent(e: Congestion) returns (isRoundStart: bool)
      requires Valid()
      modifies `bytesInFlight, `roundTripCount, `currentRoundTripEnd, `recoveryState, `endRecoveryAt, `recoveryWindow
      modifies sampler`isAppLimited, sampler`endOfAppLimitedPhase
      ensures Valid() && sampler.Repr() == old(sampler.Repr()) && isRoundStart == IsRoundStart(old(Abs()), e)
      ensures bytesInFlight == InFlightAfter(e)
      ensures RoundsOf() == RoundsAfter(old(Abs()), e) && RecoveryOf() == RecoveryStep(old(Abs()), e)
      ensures sampler.Abs() == if FallsIdle(old(Abs()), e.priorInFlight) then OnAppLimited(old(sampler.Abs()))
                               else old(sampler.Abs())
    {
      hide BandwidthSampler.Valid;
      hide BandwidthSampler.Abs;
      hide OnAppLimited;
      hide FallsIdle;
      hide InFlightAfter;
      hide NextRecovery;
      hide NextRounds;
      MaybeAppLimited(e.priorInFlight);
      DeductPackets(e);
      isRoundStart := HandleAcks(e);
    }

    /** Feeds the filter, unless the sample is app-limited and below the estimate. */
    method UpdateMaxBandwidth(sample: EventSample)
      requires maxBandwidth.Valid() && maxBandwidth.rank == RATE && maxBandwidth.windowLength == BANDWIDTH_WINDOW
      modifies maxBandwidth`estimates
      ensures maxBandwidth.Valid()
      ensures maxBandwidth.Abs() == NextMaxBandwidth(old(maxBandwidth.Abs()), roundTripCount, true, sample)
    {
      hide Updated;
      if !sample.isAppLimited || sample.maxBandwidth > maxBandwidth.GetBest() {
        maxBandwidth.Update(sample.maxBandwidth, roundTripCount);
      }
    }

    /** Takes in what the sampler reports: limits, bandwidth, minimum RTT and losses. */
    method AbsorbSample(now: Time, sample: EventSample, hasAckedBytes: bool, hasLosses: bool, bytesLost: int)
      returns (minRttExpired: bool)
      requires maxBandwidth.Valid() && maxBandwidth.rank == RATE && maxBandwidth.windowLength == BANDWIDTH_WINDOW
      modifies `lastSampleIsAppLimited, `hasNoAppLimitedSample, `minRtt, `minRttTimestamp
      modifies `numLossEventsInRound, `bytesLostInRound, maxBandwidth`estimates
      ensures maxBandwidth.Valid()
      ensures maxBandwidth.Abs() == NextMaxBandwidth(old(maxBandwidth.Abs()), roundTripCount, hasAckedBytes, sample)
      ensures LimitsOf() == NextLimits(old(LimitsOf()), sample.lastState)
      ensures MinRttOf() == NextMinRtt(old(MinRttOf()), now, sample.rtt)
      ensures LossesOf() == NextLosses(old(LossesOf()), hasLosses, bytesLost)
      ensures minRttExpired == Expires(old(MinRttOf()), now, sample.rtt)
    {
      hide Updated;
      hide WindowedFilter.Abs;
      if sample.lastState.isValid {
        lastSampleIsAppLimited := sample.lastState.isAppLimited;
        hasNoAppLimitedSample := hasNoAppLimitedSample || !lastSampleIsAppLimited;
      }
      if hasAckedBytes {
        UpdateMaxBandwidth(sample);
      }
      minRttExpired := false;
      if sample.rtt != INF_RTT {
        minRttExpired := MaybeUpdateMinRtt(now, sample.rtt);
      }
      if hasLosses {
        numLossEventsInRound := numLossEventsInRound + 1;
        bytesLostInRound := bytesLostInRound + bytesLost;
      }
    }

    /** The mode machine of the event up to, and not including, PROBE_RTT. */
    method ChangeMode(e: Congestion, isRoundStart: bool, last: SendState)
      requires maxBandwidth.Valid()
      modifies `mode, `pacingGain, `congestionWindowGain, `cycleCurrentOffset, `lastCycleStart
      modifies `isAtFullBandwidth, `roundsWithoutBandwidthGain, `bandwidthAtLastRound
      ensures var rtt, best := GetMinRtt(minRtt, e.statsRtt), maxBandwidth.Abs().best.sample;
              var belowTarget := bytesInFlight <= TargetWindow(config, rtt, best, 1.0);
              var m := if old(mode) == ProbeBw
                       then NextCycle(old(ModesOf()), e.time, rtt, HasLosses(e),
                                      e.priorInFlight < TargetWindow(config, rtt, best, old(pacingGain)), belowTarget)
                       else old(ModesOf());
              && FullOf() == (if isRoundStart && !old(isAtFullBandwidth)
                              then CheckedFullBandwidth(old(FullOf()), best, lastSampleIsAppLimited,
                                                        TooMuchLoss(LossesOf(), last))
                              else old(FullOf()))
              && ModesOf() == LeaveStartupOrDrain(m, isAtFullBandwidth, belowTarget, e.time, e.draw)
    {
      hide TargetWindow;
      hide GetMinRtt;
      hide NextCycle;
      hide LeaveStartupOrDrain;
      hide CheckedFullBandwidth;
      hide TooMuchLoss;
      if mode == ProbeBw {
        UpdateGainCyclePhase(e.time, e.priorInFlight, |e.lost| != 0, e.statsRtt);
      }
      if isRoundStart && !isAtFullBandwidth {
        CheckIfFullBandwidthReached(last);
      }
      MaybeExitStartupOrDrain(e.time, e.statsRtt, e.draw);
    }

    /** The pacing rate and both windows after the model has been updated. */
    method Resize(statsRtt: nat, bytesAcked: int, bytesLost: int)
      requires Valid()
      modifies `pacingRate, `congestionWindow, `recoveryWindow
      ensures Valid() && sampler.Repr() == old(sampler.Repr()) && sampler.Abs() == old(sampler.Abs())
      ensures pacingRate == NextPacingRate(old(pacingRate), pacingGain, maxBandwidth.Abs().best.sample,
                                           isAtFullBandwidth, config.initialWindow, statsRtt)
      ensures congestionWindow == NextWindow(config, old(congestionWindow), mode, isAtFullBandwidth,
                                             TargetWindow(config, GetMinRtt(minRtt, statsRtt),
                                                          maxBandwidth.Abs().best.sample, congestionWindowGain),
                                             old(sampler.Abs()).tracker.heights.best.sample.extraAcked,
                                             bytesAcked, old(sampler.Abs()).totalBytesAcked)
      ensures RecoveryOf() == NextRecoveryWindow(old(RecoveryOf()), config.minWindow, maxDatagramSize, bytesInFlight,
                                                 bytesAcked, bytesLost)
    {
      hide WindowedFilter.Abs;
      hide BandwidthSampler.Valid;
      hide BandwidthSampler.Abs;
      hide TargetWindow;
      hide GetMinRtt;
      hide NextPacingRate;
      hide NextWindow;
      hide NextRecoveryWindow;
      CalculatePacingRate(statsRtt);
      CalculateCongestionWindow(bytesAcked, statsRtt);
      CalculateRecoveryWindow(bytesAcked, bytesLost);
    }

    /** Drops obsolete packets from the sampler and, at a round start, resets the loss counters. */
    method Cleanup(e: Congestion, isRoundStart: bool)
      requires Valid() && HasPackets(e)
      modifies `numLossEventsInRound, `bytesLostInRound, sampler.Repr()
      ensures Valid() && sampler.Repr() == old(sampler.Repr())
      ensures LossesOf() == if isRoundStart then Losses(0, 0) else old(LossesOf())
      ensures sampler.Abs() == RemoveObsolete(old(sampler.Abs()), LeastUnacked(e))
    {
      hide BandwidthSampler.Valid;
      hide BandwidthSampler.Abs;
      hide RemoveObsolete;
      var leastUnacked;
      if |e.acked| != 0 {
        leastUnacked := e.acked[|e.acked| - 1].number - 2;
      } else {
        leastUnacked := e.lost[|e.lost| - 1].number + 1;
      }
      sampler.RemoveObsoletePackets(leastUnacked);
      if isRoundStart {
        numLossEventsInRound := 0;
        bytesLostInRound := 0;
      }
    }

    /** The fields when the sampler has been consulted and the modes are about to change: p is the path observed and x
        the sampler's state. */
    ghost predicate Observed(e: Congestion, b: Bbr, p: Path, x: Sampler)
      requires Valid()
      reads this, maxBandwidth, pacer, sampler, sampler.Repr()
    {
      Underway(e, b, p) && ModesOf() == b.modes && FullOf() == b.full && MinRttOf() == p.minRtt && sampler.Abs() == x
    }

    /** What the mode machine leaves alone. */
    ghost predicate Underway(e: Congestion, b: Bbr, p: Path)
      requires Valid()
      reads this, maxBandwidth, pacer, sampler, sampler.Repr()
    {
      && config == b.config && lastSentPacket == b.lastSent && bytesInFlight == InFlightAfter(e)
      && RoundsOf() == RoundsAfter(b, e) && RecoveryOf() == RecoveryStep(b, e)
      && LossesOf() == p.losses && LimitsOf() == p.limits && maxBandwidth.Abs() == p.maxBandwidth
      && congestionWindow == b.window && pacingRate == b.pacingRate && maxDatagramSize == b.datagram
      && pacer.Abs() == b.pacer
    }

    /** The event up to the point where the sampler has answered. */
    method Ask(e: Congestion) returns (isRoundStart: bool, sample: EventSample, bytesAcked: int, bytesLost: int)
      requires Valid()
      modifies `bytesInFlight, `roundTripCount, `currentRoundTripEnd, `recoveryState, `endRecoveryAt, `recoveryWindow
      modifies sampler.Repr()
      ensures Valid() && fresh(sampler.Repr() - old(sampler.Repr()))
      ensures isRoundStart == IsRoundStart(old(Abs()), e) && bytesInFlight == InFlightAfter(e)
      ensures RoundsOf() == RoundsAfter(old(Abs()), e) && RecoveryOf() == RecoveryStep(old(Abs()), e)
      ensures var (s, x) := SamplerOutcome(old(Abs()), e); sampler.Abs() == s && sample == x
      ensures bytesAcked == sampler.Abs().totalBytesAcked - old(sampler.Abs()).totalBytesAcked
      ensures bytesLost == sampler.Abs().totalBytesLost - old(sampler.Abs()).totalBytesLost
    {
      hide BandwidthSampler.Valid;
      hide BandwidthSampler.Abs;
      hide OnAppLimited;
      hide OnCongestionEvent;
      hide WindowedFilter.Abs;
      hide Pacing.Pacer.Abs;
      hide FallsIdle;
      hide InFlightAfter;
      hide IsRoundStart;
      hide RoundsAfter;
      hide RecoveryStep;
      var totalBytesAckedBefore, totalBytesLostBefore := sampler.TotalBytesAcked(), sampler.TotalBytesLost();
      isRoundStart := BeginEvent(e);
      sample := sampler.OnCongestionEvent(e.time, e.acked, e.lost, maxBandwidth.GetBest(), INF_BANDWIDTH, roundTripCount);
      bytesLost := sampler.TotalBytesLost() - totalBytesLostBefore;
      bytesAcked := sampler.TotalBytesAcked() - totalBytesAckedBefore;
    }

    /** The event up to the point where the modes change. */
    method Consult(e: Congestion) returns (isRoundStart: bool, sample: EventSample, bytesAcked: int, bytesLost: int,
                                           minRttExpired: bool)
      requires Valid()
      modifies `bytesInFlight, `roundTripCount, `currentRoundTripEnd, `recoveryState, `endRecoveryAt, `recoveryWindow
      modifies `lastSampleIsAppLimited, `hasNoAppLimitedSample, `minRtt, `minRttTimestamp
      modifies `numLossEventsInRound, `bytesLostInRound, maxBandwidth`estimates, sampler.Repr()
      ensures Valid() && fresh(sampler.Repr() - old(sampler.Repr()))
      ensures isRoundStart == IsRoundStart(old(Abs()), e) && bytesInFlight == InFlightAfter(e)
      ensures RoundsOf() == RoundsAfter(old(Abs()), e) && RecoveryOf() == RecoveryStep(old(Abs()), e)
      ensures var (s, x) := SamplerOutcome(old(Abs()), e); sampler.Abs() == s && sample == x
      ensures Path(maxBandwidth.Abs(), MinRttOf(), LimitsOf(), LossesOf(), bytesAcked, bytesLost, minRttExpired)
           == PathAfter(old(Abs()), e, sampler.Abs(), sample)
    {
      hide BandwidthSampler.Valid;
      hide BandwidthSampler.Abs;
      hide WindowedFilter.Abs;
      hide Pacing.Pacer.Abs;
      hide SamplerOutcome;
      hide InFlightAfter;
      hide IsRoundStart;
      hide RoundsAfter;
      hide RecoveryStep;
      hide NextMaxBandwidth;
      hide NextLimits;
      hide NextMinRtt;
      hide NextLosses;
      hide Expires;
      isRoundStart, sample, bytesAcked, bytesLost := Ask(e);
      minRttExpired := AbsorbSample(e.time, sample, bytesAcked != 0, |e.lost| != 0, bytesLost);
    }

    method Observe(e: Congestion) returns (isRoundStart: bool, sample: EventSample, bytesAcked: int, bytesLost: int,
                                           minRttExpired: bool)
      requires Valid()
      modifies this, maxBandwidth, sampler.Repr()
      ensures Valid() && fresh(sampler.Repr() - old(sampler.Repr()))
      ensures isRoundStart == IsRoundStart(old(Abs()), e)
      ensures var (x, y) := SamplerOutcome(old(Abs()), e);
              var p := PathAfter(old(Abs()), e, x, y);
              && sample == y && Observed(e, old(Abs()), p, x)
              && bytesAcked == p.bytesAcked && bytesLost == p.bytesLost && minRttExpired == p.minRttExpired
    {
      hide Pacing.Pacer.Abs;
      hide WindowedFilter.Abs;
      hide BandwidthSampler.Valid;
      hide BandwidthSampler.Abs;
      hide InFlightAfter;
      hide IsRoundStart;
      hide RoundsAfter;
      hide RecoveryStep;
      hide SamplerOutcome;
      hide PathAfter;
      isRoundStart, sample, bytesAcked, bytesLost, minRttExpired := Consult(e);
    }

    /** The fields that the event has settled when only rates, windows and cleanup are left; x is the sampler's state
        after it was consulted. */
    ghost predicate Steered(e: Congestion, b: Bbr, p: Path, x: Sampler, last: SendState)
      requires Valid()
      reads this, maxBandwidth, pacer, sampler, sampler.Repr()
    {
      var entered := ModesBeforeStay(b, e, p, isAtFullBandwidth);
      && Underway(e, b, p)
      && FullOf() == FullAfter(b, e, p, last) && ModesOf() == ModesAfter(b, e, entered, isAtFullBandwidth)
      && MinRttOf() == (if LeavesProbeRtt(entered, e.time, IsRoundStart(b, e)) then p.minRtt.(timestamp := e.time) else p.minRtt)
      && sampler.Abs() == (if entered.mode == ProbeRtt then OnAppLimited(x) else x)
    }

    /** The whole mode machine; b and p are the state before the event and the path that was observed. */
    method RunModes(e: Congestion, isRoundStart: bool, last: SendState, minRttExpired: bool, ghost b: Bbr, ghost p: Path)
      requires Valid() && isRoundStart == IsRoundStart(b, e) && bytesInFlight == InFlightAfter(e)
      requires config == b.config && ModesOf() == b.modes && FullOf() == b.full
      requires maxBandwidth.Abs() == p.maxBandwidth && MinRttOf() == p.minRtt && minRttExpired == p.minRttExpired
      requires LimitsOf() == p.limits && LossesOf() == p.losses
      modifies `mode, `pacingGain, `congestionWindowGain, `cycleCurrentOffset, `lastCycleStart, `exitingQuiescence
      modifies `isAtFullBandwidth, `roundsWithoutBandwidthGain, `bandwidthAtLastRound
      modifies `exitProbeRttAt, `probeRttRoundPassed, `minRttTimestamp, sampler`isAppLimited, sampler`endOfAppLimitedPhase
      ensures Valid() && sampler.Repr() == old(sampler.Repr())
      ensures FullOf() == FullAfter(b, e, p, last)
      ensures var entered := ModesBeforeStay(b, e, p, isAtFullBandwidth);
              && ModesOf() == ModesAfter(b, e, entered, isAtFullBandwidth)
              && MinRttOf() == (if LeavesProbeRtt(entered, e.time, isRoundStart) then p.minRtt.(timestamp := e.time) else p.minRtt)
              && sampler.Abs() == (if entered.mode == ProbeRtt then OnAppLimited(old(sampler.Abs())) else old(sampler.Abs()))
    {
      hide WindowedFilter.Valid;
      hide WindowedFilter.Abs;
      hide BandwidthSampler.Valid;
      hide BandwidthSampler.Abs;
      hide OnAppLimited;
      hide InFlightAfter;
      hide IsRoundStart;
      hide TargetWindow;
      hide GetMinRtt;
      hide NextCycle;
      hide LeaveStartupOrDrain;
      hide MaybeEnterProbeRtt;
      hide StayInProbeRtt;
      hide LeavesProbeRtt;
      hide CheckedFullBandwidth;
      hide TooMuchLoss;
      ChangeMode(e, isRoundStart, last);
      MaybeEnterOrExitProbeRtt(e.time, isRoundStart, minRttExpired, e.draw);
    }

    method Steer(e: Congestion, isRoundStart: bool, last: SendState, minRttExpired: bool,
                 ghost b: Bbr, ghost p: Path, ghost x: Sampler)
      requires Valid() && isRoundStart == IsRoundStart(b, e) && minRttExpired == p.minRttExpired && Observed(e, b, p, x)
      modifies this, sampler`isAppLimited, sampler`endOfAppLimitedPhase
      ensures Valid() && sampler.Repr() == old(sampler.Repr())
      ensures Steered(e, b, p, x, last)
    {
      hide WindowedFilter.Abs;
      hide BbrSender.Valid;
      hide BandwidthSampler.Valid;
      hide BandwidthSampler.Repr;
      hide BandwidthSampler.Abs;
      hide OnAppLimited;
      hide InFlightAfter;
      hide IsRoundStart;
      hide RoundsAfter;
      hide RecoveryStep;
      hide FullAfter;
      hide ModesBeforeStay;
      hide ModesAfter;
      hide LeavesProbeRtt;
      RunModes(e, isRoundStart, last, minRttExpired, b, p);
    }

    /** Rates, windows and cleanup, as a change of the whole state. */
    method Settle(e: Congestion, isRoundStart: bool, bytesAcked: int, bytesLost: int)
      requires Valid() && HasPackets(e)
      modifies `pacingRate, `congestionWindow, `recoveryWindow, `numLossEventsInRound, `bytesLostInRound, sampler.Repr()
      ensures Valid() && sampler.Repr() == old(sampler.Repr())
      ensures var b := old(Abs());
              var best, s := b.maxBandwidth.best.sample, b.sampler;
              Abs() == b.(pacingRate := NextPacingRate(b.pacingRate, b.modes.pacingGain, best, b.full.reached,
                                                       b.config.initialWindow, e.statsRtt),
                          window := NextWindow(b.config, b.window, b.modes.mode, b.full.reached,
                                               TargetWindow(b.config, GetMinRtt(b.minRtt.value, e.statsRtt), best,
                                                            b.modes.windowGain),
                                               s.tracker.heights.best.sample.extraAcked, bytesAcked, s.totalBytesAcked),
                          recovery := NextRecoveryWindow(b.recovery, b.config.minWindow, b.datagram, b.bytesInFlight,
                                                         bytesAcked, bytesLost),
                          losses := if isRoundStart then Losses(0, 0) else b.losses,
                          sampler := RemoveObsolete(s, LeastUnacked(e)))
    {
      hide BandwidthSampler.Valid;
      hide BandwidthSampler.Abs;
      hide RemoveObsolete;
      hide WindowedFilter.Abs;
      hide Pacing.Pacer.Abs;
      hide TargetWindow;
      hide GetMinRtt;
      hide NextPacingRate;
      hide NextWindow;
      hide NextRecoveryWindow;
      hide LeastUnacked;
      Resize(e.statsRtt, bytesAcked, bytesLost);
      Cleanup(e, isRoundStart);
    }

    /** Rates, windows and cleanup, which complete the event. */
    method Complete(e: Congestion, isRoundStart: bool, bytesAcked: int, bytesLost: int,
                    ghost b: Bbr, ghost x: Sampler, ghost sample: EventSample)
      requires Valid() && HasPackets(e) && isRoundStart == IsRoundStart(b, e)
      requires var p := PathAfter(b, e, x, sample);
               Steered(e, b, p, x, sample.lastState) && bytesAcked == p.bytesAcked && bytesLost == p.bytesLost
      modifies `pacingRate, `congestionWindow, `recoveryWindow, `numLossEventsInRound, `bytesLostInRound, sampler.Repr()
      ensures Valid() && sampler.Repr() == old(sampler.Repr())
      ensures Abs() == Conclude(b, e, x, sample)
    {
      hide BbrSender.Valid;
      hide BandwidthSampler.Abs;
      hide RemoveObsolete;
      hide WindowedFilter.Abs;
      hide Pacing.Pacer.Abs;
      hide PathAfter;
      hide FullAfter;
      hide ModesBeforeStay;
      hide ModesAfter;
      hide InFlightAfter;
      hide IsRoundStart;
      hide RoundsAfter;
      hide RecoveryStep;
      hide TargetWindow;
      hide GetMinRtt;
      hide LeavesProbeRtt;
      hide NextPacingRate;
      hide NextWindow;
      hide NextRecoveryWindow;
      hide LeastUnacked;
      ghost var s := Abs();
      assert s == Bbr(b.config, s.modes, s.full, RoundsAfter(b, e), RecoveryStep(b, e), s.losses, s.limits, s.minRtt,
                      s.maxBandwidth, s.sampler, b.lastSent, InFlightAfter(e), b.window, b.pacingRate, b.datagram, b.pacer);
      hide BbrSender.Abs;
      Settle(e, isRoundStart, bytesAcked, bytesLost);
    }

    method OnCongestionEventEx(e: Congestion)
      requires Valid() && HasPackets(e)
      modifies this, maxBandwidth, sampler.Repr()
      ensures Valid() && fresh(sampler.Repr() - old(sampler.Repr()))
      ensures Abs() == OnCongestion(old(Abs()), e)
    {
      hide BbrSender.Valid;
      hide BbrSender.Abs;
      hide BbrSender.Observed;
      hide BbrSender.Steered;
      hide SamplerOutcome;
      hide PathAfter;
      hide IsRoundStart;
      hide Conclude;
      ghost var b := Abs();
      var isRoundStart, sample, bytesAcked, bytesLost, minRttExpired := Observe(e);
      ghost var x := SamplerOutcome(b, e).0;
      ghost var p := PathAfter(b, e, x, sample);
      Steer(e, isRoundStart, sample.lastState, minRttExpired, b, p, x);
      Complete(e, isRoundStart, bytesAcked, bytesLost, b, x, sample);
    }

    /** Any call into the sender: the object moves exactly as the runs of BbrProofs do, so what is proved of every run
        holds of every object that only such calls have touched. */
    method Handle(e: BbrProofs.Event)
      requires Valid() && BbrProofs.Inv(Abs()) && BbrProofs.Allowed(Abs(), e)
      modifies this, pacer, maxBandwidth, sampler.Repr()
      ensures Valid() && fresh(sampler.Repr() - old(sampler.Repr()))
      ensures BbrProofs.Inv(Abs()) && Abs() == BbrProofs.Step(old(Abs()), e)
    {
      hide BbrProofs.Inv;
      BbrProofs.StepKeepsInv(Abs(), e);
      LastSentAgrees(Abs());
      hide BbrSender.Abs;
      hide OnCongestion;
      hide OnSent;
      match e {
        case Sent(time, bytesInFlight, number, bytes, isRetransmittable) =>
          OnPacketSent(time, bytesInFlight, number, bytes, isRetransmittable);
        case Congested(congestion) =>
          OnCongestionEventEx(congestion);
        case DatagramSize(size) =>
          SetMaxDatagramSize(size);
      }
    }
  }

  lemma LastSentAgrees(b: Bbr)
    requires BbrProofs.Inv(b)
    ensures b.sampler.lastSent == b.lastSent
  {
    hide SamplerProofs.Inv;
  }
}
