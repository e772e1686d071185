/** What the windows of the BBR sender are for: packet conservation in recovery, the target and the way to it. */
module BbrWindows {
  import opened Common
  import opened SamplerModel
  import opened BbrModel
  import opened BbrProofs
  import BbrModes
  import BbrRuns
  import SP = SamplerProofs

  // ---------- Packet conservation ----------

  /** The room for new packets that recovery leaves. If the sender kept within the recovery window before the event and
      the reported bytes are those of the event, CONSERVATION adds exactly one byte of room for each byte acked and GROWTH
      two; at least the bytes acked may always be sent, and what the minimum window allows. */
  lemma RecoveryConservesPackets(r: Recovery, minWindow: nat, datagram: nat, prior: nat, acked: nat, lost: nat)
    requires r.state != NotInRecovery && r.window > 0
    requires acked + lost <= prior <= r.window
    ensures var inFlight := prior - acked - lost;
            var next := NextRecoveryWindow(r, minWindow, datagram, inFlight, acked, lost);
            var growth := if r.state == Conservation then acked else 2 * acked;
            && next.state == r.state && next.endAt == r.endAt
            && next.window - inFlight == Max(Max(r.window - prior + growth, acked), minWindow - inFlight)
  {
  }

  /** An event that loses more than the recovery window leaves a datagram, plus the bytes acked in GROWTH, but again at least
      what is in flight plus the bytes acked, and the minimum window. */
  lemma HeavyLossesLeaveOneDatagram(r: Recovery, minWindow: nat, datagram: nat, inFlight: int, acked: nat, lost: nat)
    requires r.state != NotInRecovery && 0 < r.window < lost
    ensures NextRecoveryWindow(r, minWindow, datagram, inFlight, acked, lost).window
         == Max(minWindow, Max(if r.state == Growth then datagram + acked else datagram, inFlight + acked))
  {
  }

  /** On every run, an event that begins recovery leaves a recovery window of what is in flight plus the bytes acked, but at
      least the minimum window. */
  lemma RecoveryStartsFromFlight(c: Config, datagram: nat, states: seq<Bbr>, events: seq<Event>, n: nat)
    requires IsRun(c, datagram, states, events) && n < |events|
    requires states[n].recovery.state == NotInRecovery && states[n + 1].recovery.state != NotInRecovery
    ensures var b, d := states[n], states[n + 1];
            d.recovery.window == Max(c.minWindow, d.bytesInFlight + d.sampler.totalBytesAcked - b.sampler.totalBytesAcked)
  {
    hide SP.Inv;
    hide Step;
    hide Allowed;
    AlwaysInv(c, datagram, states, events, n);
    assert Follows(states[n], events[n], states[n + 1]);
    EntryWindow(states[n], events[n]);
  }

  lemma EntryWindow(b: Bbr, e: Event)
    requires Inv(b) && Allowed(b, e)
    requires b.recovery.state == NotInRecovery && Step(b, e).recovery.state != NotInRecovery
    ensures var d := Step(b, e);
            d.recovery.window
              == Max(b.config.minWindow, d.bytesInFlight + d.sampler.totalBytesAcked - b.sampler.totalBytesAcked)
  {
    hide SP.Inv;
    hide SamplerOutcome;
    hide FullAfter;
    hide ModesBeforeStay;
    hide ModesAfter;
    hide NextMaxBandwidth;
    hide NextMinRtt;
    hide NextWindow;
    hide NextPacingRate;
    hide RoundsAfter;
    hide InFlightAfter;
    hide IsRoundStart;
    hide TargetAt;
  }

  // ---------- The target window ----------

  /** The target window is the minimum window, the initial window times the gain (while there is no estimate yet), or at
      most the gain times the bytes that the bandwidth estimate (in bits per second) delivers in the minimum RTT, also where
      the product wraps around. */
  lemma TargetIsScaledBdp(c: Config, rtt: nat, bandwidth: Bandwidth, gain: real)
    requires gain >= 0.0
    ensures var target := TargetWindow(c, rtt, bandwidth, gain);
            || target == c.minWindow
            || target == Scale(gain, c.initialWindow)
            || target as real * 8.0 * SECOND as real <= gain * (rtt * bandwidth) as real
  {
    var bits, bdp := rtt * bandwidth, Bdp(rtt, bandwidth);
    assert bits >= 0;
    BdpIsBelowProduct(bits);
    if bdp > 0 {
      ScaledIsBelow(gain, bdp, bits);
    } else {
      assert gain * bdp as real <= 0.0;
    }
  }

  lemma BdpIsBelowProduct(bits: nat)
    ensures var bdp := TruncDiv(TruncDiv(Wrap64(bits), 8), SECOND);
            bdp > 0 ==> bdp * 8 * SECOND <= bits
  {
  }

  lemma ScaledIsBelow(gain: real, bdp: nat, bits: nat)
    requires gain >= 0.0 && bdp * 8 * SECOND <= bits
    ensures Scale(gain, bdp) >= 0 && Scale(gain, bdp) as real * 8.0 * SECOND as real <= gain * bits as real
  {
    var x := gain * bdp as real;
    assert x >= 0.0 && Scale(gain, bdp) == x.Floor;
    var rest := (bits - bdp * 8 * SECOND) as real;
    assert gain * rest >= 0.0;
    assert gain * bits as real == x * (8 * SECOND) as real + gain * rest;
  }

  /** The gain times the bandwidth-delay product in whole bytes or, only if that is less than a byte, the gain times the initial
      window, but at least the minimum window. */
  ghost function ScaledProduct(c: Config, rtt: nat, bandwidth: Bandwidth, gain: real): int {
    ScaledBytes(c, rtt * bandwidth / (8 * SECOND), gain)
  }

  ghost function ScaledBytes(c: Config, bdp: nat, gain: real): int {
    Max((gain * (if gain * bdp as real < 1.0 then c.initialWindow else bdp) as real).Floor, c.minWindow)
  }

  /** Where the product fits an int64, that is the target. */
  lemma TargetIsExact(c: Config, rtt: nat, bandwidth: Bandwidth, gain: real)
    requires gain >= 0.0 && rtt * bandwidth < TWO_TO_THE_63
    ensures TargetWindow(c, rtt, bandwidth, gain) == ScaledProduct(c, rtt, bandwidth, gain)
  {
    var bits := rtt * bandwidth;
    assert bits >= 0;
    DivideTwice(bits);
    assert Bdp(rtt, bandwidth) == bits / (8 * SECOND);
    hide Bdp;
    hide ScaledBytes;
    hide Scale;
    ScaledBytesAreUsed(c, bits / (8 * SECOND), gain);
  }

  lemma ScaledBytesAreUsed(c: Config, bdp: nat, gain: real)
    requires gain >= 0.0
    ensures var window := Scale(gain, bdp);
            Max(if window == 0 then Scale(gain, c.initialWindow) else window, c.minWindow) == ScaledBytes(c, bdp, gain)
  {
    ScaleIsFloor(gain, bdp);
    ScaleIsFloor(gain, c.initialWindow);
    hide Scale;
  }

  lemma DivideTwice(bits: nat)
    ensures bits / 8 / SECOND == bits / (8 * SECOND)
  {
  }

  /** Scaling rounds towards zero on both sides. */
  lemma ScaleIsSymmetric(gain: real, bytes: nat)
    requires gain >= 0.0
    ensures Scale(gain, -(bytes as int)) == -Scale(gain, bytes)
  {
    assert gain * (-(bytes as int)) as real == -(gain * bytes as real);
    assert gain * bytes as real >= 0.0;
  }

  lemma ScaleIsFloor(gain: real, bytes: nat)
    requires gain >= 0.0
    ensures Scale(gain, bytes) == (gain * bytes as real).Floor >= 0
    ensures Scale(gain, bytes) == 0 <==> gain * bytes as real < 1.0
  {
    assert gain * bytes as real >= 0.0;
  }

  // ---------- The congestion window over runs ----------

  /** What one call makes of the congestion window, exactly. During PROBE_RTT it is kept. Before full bandwidth it grows by
      the bytes acked, as long as it is below the target or not even the initial window's bytes are acked, and is kept
      otherwise. At full bandwidth it moves towards the target plus the tracked ack height by at most the bytes acked. */
  lemma StepOnWindow(b: Bbr, e: Event)
    requires Inv(b) && Allowed(b, e)
    ensures var c := Step(b, e);
            if !e.Congested? then c.window == b.window && c.sampler.totalBytesAcked == b.sampler.totalBytesAcked
            else
              var acked := c.sampler.totalBytesAcked - b.sampler.totalBytesAcked;
              var target := BbrModes.EventTarget(b, e.congestion, CWND_GAIN);
              var height := SamplerOutcome(b, e.congestion).0.tracker.heights.best.sample.extraAcked;
              && acked >= 0
              && c.window ==
                   if c.modes.mode == ProbeRtt then b.window
                   else if c.full.reached
                   then Min(Max(Min(target + height, b.window + acked), b.config.minWindow), b.config.maxWindow)
                   else if b.window < target || c.sampler.totalBytesAcked < b.config.initialWindow
                   then Min(b.window + acked, b.config.maxWindow)
                   else b.window
  {
    hide SP.Inv;
    hide OnCongestion;
    hide SamplerOutcome;
    hide BbrModes.EventTarget;
    if e.Congested? {
      SamplerDelivers(b, e.congestion);
      GainStaysTwo(b, e);
      EventOnWindow(b, e.congestion);
    }
  }

  lemma EventOnWindow(b: Bbr, e: Congestion)
    requires HasPackets(e)
    ensures var c, s := OnCongestion(b, e), SamplerOutcome(b, e).0;
            && c.sampler.totalBytesAcked == s.totalBytesAcked
            && c.window == NextWindow(b.config, b.window, c.modes.mode, c.full.reached,
                                      BbrModes.EventTarget(b, e, c.modes.windowGain),
                                      s.tracker.heights.best.sample.extraAcked,
                                      s.totalBytesAcked - b.sampler.totalBytesAcked, s.totalBytesAcked)
  {
    hide SamplerOutcome;
    hide FullAfter;
    hide ModesBeforeStay;
    hide ModesAfter;
    hide NextMaxBandwidth;
    hide NextMinRtt;
    hide NextLimits;
    hide NextLosses;
    hide Expires;
    hide NextWindow;
    hide NextRecoveryWindow;
    hide RecoveryStep;
    hide RoundsAfter;
    hide InFlightAfter;
    hide IsRoundStart;
    hide LeavesProbeRtt;
    hide NextPacingRate;
    hide TargetWindow;
    hide GetMinRtt;
  }

  lemma GainStaysTwo(b: Bbr, e: Event)
    requires Inv(b) && Allowed(b, e)
    ensures Step(b, e).modes.windowGain == CWND_GAIN
  {
    hide Step;
    StepKeepsInv(b, e);
  }

  /** Event k may grow the window by all that it acks. */
  ghost predicate GrowsAt(states: seq<Bbr>, events: seq<Event>, k: nat)
    requires |states| == |events| + 1 && k < |events|
  {
    var b, c := states[k], states[k + 1];
    events[k].Congested? ==>
      && !c.full.reached && c.modes.mode != ProbeRtt
      && (c.sampler.totalBytesAcked < b.config.initialWindow
          || b.window < BbrModes.EventTarget(b, events[k].congestion, CWND_GAIN))
  }

  /** Over any stretch of such events the window grows by exactly the bytes acked, up to the maximum. */
  lemma {:induction false} WindowGrowsByAcked(c: Config, datagram: nat, states: seq<Bbr>, events: seq<Event>, i: nat, j: nat)
    requires IsRun(c, datagram, states, events) && i <= j < |states|
    requires forall k :: i <= k < j ==> GrowsAt(states, events, k)
    ensures states[j].sampler.totalBytesAcked >= states[i].sampler.totalBytesAcked
    ensures states[j].window
         == Min(states[i].window + states[j].sampler.totalBytesAcked - states[i].sampler.totalBytesAcked, c.maxWindow)
  {
    hide SP.Inv;
    hide Step;
    hide Allowed;
    AlwaysInv(c, datagram, states, events, i);
    if i < j {
      WindowGrowsByAcked(c, datagram, states, events, i, j - 1);
      AlwaysInv(c, datagram, states, events, j - 1);
      assert Follows(states[j - 1], events[j - 1], states[j - 1 + 1]);
      StepOnWindow(states[j - 1], events[j - 1]);
      assert GrowsAt(states, events, j - 1);
    }
  }

  /** The bytes acked never fall. */
  lemma {:induction false} AckedOnlyRises(c: Config, datagram: nat, states: seq<Bbr>, events: seq<Event>, i: nat, j: nat)
    requires IsRun(c, datagram, states, events) && i <= j < |states|
    ensures states[j].sampler.totalBytesAcked >= states[i].sampler.totalBytesAcked
  {
    hide SP.Inv;
    hide Step;
    hide Allowed;
    if i < j {
      AckedOnlyRises(c, datagram, states, events, i, j - 1);
      AlwaysInv(c, datagram, states, events, j - 1);
      assert Follows(states[j - 1], events[j - 1], states[j - 1 + 1]);
      StepOnWindow(states[j - 1], events[j - 1]);
    }
  }

  /** So until the initial window's bytes are acked, before full bandwidth and outside PROBE_RTT, the window is the initial
      window plus all bytes acked, up to the maximum. */
  lemma FirstWindowGrows(c: Config, datagram: nat, states: seq<Bbr>, events: seq<Event>, j: nat)
    requires IsRun(c, datagram, states, events) && j < |states|
    requires states[j].sampler.totalBytesAcked < c.initialWindow && !states[j].full.reached
    requires forall k :: 0 <= k <= j ==> states[k].modes.mode != ProbeRtt
    ensures states[j].window == Min(c.initialWindow + states[j].sampler.totalBytesAcked, c.maxWindow)
  {
    hide Inv;
    hide Step;
    hide Allowed;
    forall k | 0 <= k < j ensures GrowsAt(states, events, k) {
      AckedOnlyRises(c, datagram, states, events, k + 1, j);
      AlwaysInv(c, datagram, states, events, k);
      if states[k + 1].full.reached {
        BbrRuns.FullBandwidthIsForever(c, datagram, states, events, k + 1, j);
      }
    }
    assert states[0] == InitialBbr(c, datagram);
    WindowGrowsByAcked(c, datagram, states, events, 0, j);
  }

  // ---------- The congestion window at full bandwidth ----------

  /** The window after events that ack the given bytes, at full bandwidth and with a fixed target. */
  ghost function SteadyWindow(c: Config, window: int, target: int, acks: seq<nat>): int {
    if acks == [] then window
    else
      var n := |acks| - 1;
      NextWindow(c, SteadyWindow(c, window, target, acks[..n]), ProbeBw, true, target, 0, acks[n], 0)
  }

  ghost function SumOf(acks: seq<nat>): nat {
    if acks == [] then 0 else SumOf(acks[..|acks| - 1]) + acks[|acks| - 1]
  }

  /** However the acks are cut up, the window moves to its target by exactly the bytes acked, and stays there. */
  lemma {:induction false} WindowMovesToTarget(c: Config, window: int, target: int, acks: seq<nat>)
    requires ConfigOk(c) && c.minWindow <= window <= c.maxWindow && acks != []
    ensures SteadyWindow(c, window, target, acks)
         == Min(Max(Min(target, window + SumOf(acks)), c.minWindow), c.maxWindow)
  {
    var n := |acks| - 1;
    if n == 0 {
      assert acks[..0] == [];
    } else {
      WindowMovesToTarget(c, window, target, acks[..n]);
    }
  }
}
