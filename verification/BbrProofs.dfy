/** What holds of the BBR sender on every run. */
module BbrProofs {
  import opened Common
  import opened WindowedFilters
  import opened SamplerModel
  import opened BbrModel
  import SP = SamplerProofs

  // ---------- The invariant ----------

  ghost predicate ConfigOk(c: Config) { 0 < c.minWindow <= c.initialWindow <= c.maxWindow }

  function GainOf(mode: Mode, offset: nat): real {
    match mode
    case Startup => HIGH_GAIN
    case Drain => DRAIN_GAIN
    case ProbeBw => CycleGain(offset)
    case ProbeRtt => 1.0
  }

  /** The mode machine between events: gains follow from the mode, and full bandwidth separates STARTUP from
      DRAIN and PROBE_BW. */
  ghost predicate ModesOk(m: Modes, isAtFullBandwidth: bool) {
    && (m.mode == Drain || m.mode == ProbeBw ==> isAtFullBandwidth)
    && (m.mode == Startup ==> !isAtFullBandwidth)
    && m.pacingGain == GainOf(m.mode, m.cycleOffset)
    && m.windowGain == CWND_GAIN
    && m.cycleOffset < GAIN_CYCLE_LENGTH
  }

  /** Recovery is only ever entered at full bandwidth, and between events its window is at least the minimum. */
  ghost predicate RecoveryOk(r: Recovery, isAtFullBandwidth: bool, minWindow: nat) {
    r.state != NotInRecovery ==> isAtFullBandwidth && r.window >= minWindow
  }

  /** Bandwidth estimates are whole numbers of bytes per second. */
  ghost predicate WholeBytes(e: Estimates<Bandwidth>) {
    e.best.sample % 8 == 0 && e.second.sample % 8 == 0 && e.third.sample % 8 == 0
  }

  ghost predicate FullOk(f: FullBandwidth) {
    f.bandwidthAtLastRound % 8 == 0 && (!f.reached ==> f.roundsWithoutGain < STARTUP_ROUNDS)
  }

  ghost predicate WindowOk(c: Config, window: int, totalAcked: nat) {
    c.minWindow <= window <= c.maxWindow && window <= c.initialWindow + totalAcked
  }

  ghost predicate NumbersOk(b: Bbr) {
    && b.sampler.lastSent == b.lastSent
    && INVALID_PACKET <= b.rounds.end <= b.lastSent
    && INVALID_PACKET <= b.recovery.endAt <= b.lastSent
  }

  ghost predicate Inv(b: Bbr) {
    && ConfigOk(b.config)
    && ModesOk(b.modes, b.full.reached)
    && FullOk(b.full)
    && RecoveryOk(b.recovery, b.full.reached, b.config.minWindow)
    && WholeBytes(b.maxBandwidth)
    && WindowOk(b.config, b.window, b.sampler.totalBytesAcked)
    && NumbersOk(b)
    && b.minRtt.value >= 0
    && SP.Inv(b.sampler)
  }

  /** The congestion window that the sender reports is always between the minimum and the maximum window. */
  lemma ReportedWindowIsBounded(b: Bbr)
    requires Inv(b)
    ensures b.config.minWindow <= GetCongestionWindow(b) <= b.config.maxWindow
  {
    hide SP.Inv;
  }

  // ---------- Runs ----------

  datatype Event =
    | Sent(time: Time, bytesInFlight: nat, number: nat, bytes: nat, isRetransmittable: bool)
    | Congested(congestion: Congestion)
    | DatagramSize(size: nat)

  /** The caller's side: packet numbers increase, the clock does not run backwards, acks follow their packets, a
      congestion event carries at least one packet and the datagram size does not shrink. */
  ghost predicate Allowed(b: Bbr, e: Event) {
    match e
    case Sent(time, _, number, _, _) => number > b.lastSent && time >= b.sampler.lastAckedAckTime
    case Congested(c) =>
      HasPackets(c) && SP.AcksInTime(b.sampler, c.time, c.acked) && (c.acked != [] ==> LastAcked(c) >= 0)
    case DatagramSize(size) => size >= b.datagram
  }

  function Step(b: Bbr, e: Event): Bbr
    requires e.Congested? ==> HasPackets(e.congestion)
  {
    match e
    case Sent(time, bytesInFlight, number, bytes, isRetransmittable) =>
      OnSent(b, time, bytesInFlight, number, bytes, isRetransmittable)
    case Congested(c) => OnCongestion(b, c)
    case DatagramSize(size) => SetMaxDatagramSize(b, size)
  }

  ghost predicate Follows(b: Bbr, e: Event, c: Bbr) { Allowed(b, e) && c == Step(b, e) }

  /** A run: its states, from the initial one on, and the calls between them. */
  ghost predicate IsRun(c: Config, datagram: nat, states: seq<Bbr>, events: seq<Event>) {
    && ConfigOk(c)
    && |states| == |events| + 1 && states[0] == InitialBbr(c, datagram)
    && forall i :: 0 <= i < |events| ==> Follows(states[i], events[i], states[i + 1])
  }

  // ---------- Every event keeps the invariant ----------

  lemma ModesStayOk(b: Bbr, e: Congestion, p: Path, full: FullBandwidth)
    requires ModesOk(b.modes, b.full.reached) && (b.full.reached ==> full.reached)
    ensures ModesOk(ModesAfter(b, e, ModesBeforeStay(b, e, p, full.reached), full.reached), full.reached)
  {
    hide TargetAt;
    hide InFlightAfter;
    hide LowInFlight;
    hide IsRoundStart;
    hide GetMinRtt;
  }

  lemma FullStaysOk(b: Bbr, e: Congestion, p: Path, last: SendState)
    requires FullOk(b.full) && WholeBytes(p.maxBandwidth)
    ensures FullOk(FullAfter(b, e, p, last)) && (b.full.reached ==> FullAfter(b, e, p, last).reached)
  {
    hide TooMuchLoss;
    hide Gained;
  }

  /** The 0 that entering recovery writes into the recovery window does not survive the event, and during recovery the
      window ends the event at no less than the bytes in flight plus the bytes just acked. */
  lemma RecoveryStaysOk(b: Bbr, e: Congestion, p: Path, isAtFullBandwidth: bool)
    requires ConfigOk(b.config) && RecoveryOk(b.recovery, b.full.reached, b.config.minWindow)
    requires b.full.reached ==> isAtFullBandwidth
    ensures var r := NextRecoveryWindow(RecoveryStep(b, e), b.config.minWindow, b.datagram, InFlightAfter(e),
                                        p.bytesAcked, p.bytesLost);
            && RecoveryOk(r, isAtFullBandwidth, b.config.minWindow)
            && (r.state != NotInRecovery ==> r.window >= InFlightAfter(e) + p.bytesAcked)
  {
    hide InFlightAfter;
    hide IsRoundStart;
  }

  lemma BandwidthStaysWhole(b: Bbr, e: Congestion, sampler: Sampler, sample: EventSample)
    requires WholeBytes(b.maxBandwidth) && sample.maxBandwidth % 8 == 0
    ensures WholeBytes(PathAfter(b, e, sampler, sample).maxBandwidth)
  {
    hide RoundsAfter;
    hide NextLimits;
    hide NextLosses;
    hide NextMinRtt;
    hide Expires;
  }

  lemma WindowStaysOk(c: Config, window: int, mode: Mode, isAtFullBandwidth: bool, target: int, ackHeight: int,
                      bytesAcked: nat, totalAcked: nat)
    requires ConfigOk(c) && bytesAcked <= totalAcked && WindowOk(c, window, totalAcked - bytesAcked)
    ensures var w := NextWindow(c, window, mode, isAtFullBandwidth, target, ackHeight, bytesAcked, totalAcked);
            WindowOk(c, w, totalAcked) && (!isAtFullBandwidth ==> w >= window) && (mode == ProbeRtt ==> w == window)
  {
  }

  lemma NumbersStayOk(b: Bbr, e: Congestion)
    requires NumbersOk(b)
    ensures INVALID_PACKET <= RoundsAfter(b, e).end <= b.lastSent
    ensures INVALID_PACKET <= RecoveryStep(b, e).endAt <= b.lastSent
  {
  }

  /** Marking the sampler app-limited or dropping obsolete packets keeps its invariant. */
  lemma SamplerExtrasKeepInv(s: Sampler, leastUnacked: int)
    requires SP.Inv(s)
    ensures SP.Inv(OnAppLimited(s)) && SP.Inv(RemoveObsolete(s, leastUnacked))
  {
    SP.StepKeepsInv(s, SP.AppLimited);
    SP.StepKeepsInv(s, SP.Forget(leastUnacked));
  }

  /** What the rest of an event needs to know about the sampler's outcome. */
  ghost predicate GoodOutcome(b: Bbr, e: Congestion, sampler: Sampler, sample: EventSample) {
    && SP.Inv(sampler)
    && sampler.lastSent == b.lastSent
    && sampler.totalBytesAcked >= b.sampler.totalBytesAcked
    && sampler.totalBytesLost >= b.sampler.totalBytesLost
    && sampler.lastAckedAckTime <= e.time
    && sample.maxBandwidth % 8 == 0 && sample.rtt > 0
  }

  lemma PreparedIsReady(b: Bbr, e: Congestion)
    requires SP.Inv(b.sampler) && SP.AcksInTime(b.sampler, e.time, e.acked)
    ensures SP.Inv(SamplerBefore(b, e)) && SP.AcksInTime(SamplerBefore(b, e), e.time, e.acked)
  {
    hide SP.Inv;
    hide FallsIdle;
    SamplerExtrasKeepInv(b.sampler, 0);
    assert forall i :: 0 <= i < |e.acked| ==> SP.AckInTime(b.sampler, e.time, e.acked[i].number);
  }

  lemma SamplerDelivers(b: Bbr, e: Congestion)
    requires Inv(b) && SP.AcksInTime(b.sampler, e.time, e.acked)
    ensures var (sampler, sample) := SamplerOutcome(b, e); GoodOutcome(b, e, sampler, sample)
  {
    hide SP.Inv;
    hide OnCongestionEvent;
    hide RoundsAfter;
    hide FallsIdle;
    PreparedIsReady(b, e);
    var s := SamplerBefore(b, e);
    SP.EventKeepsInv(s, e.time, e.acked, e.lost, b.maxBandwidth.best.sample, INF_BANDWIDTH, RoundsAfter(b, e).count);
  }

  lemma ConcludeKeepsInv(b: Bbr, e: Congestion, sampler: Sampler, sample: EventSample)
    requires Inv(b) && HasPackets(e) && GoodOutcome(b, e, sampler, sample)
    ensures Inv(Conclude(b, e, sampler, sample))
  {
    hide SP.Inv;
    hide NextMaxBandwidth;
    hide FullAfter;
    hide ModesBeforeStay;
    hide ModesAfter;
    hide RoundsAfter;
    hide RecoveryStep;
    hide NextRecoveryWindow;
    hide NextWindow;
    hide NextPacingRate;
    hide TargetAt;
    hide InFlightAfter;
    hide IsRoundStart;
    hide LeavesProbeRtt;
    var p := PathAfter(b, e, sampler, sample);
    var full := FullAfter(b, e, p, sample.lastState);
    BandwidthStaysWhole(b, e, sampler, sample);
    FullStaysOk(b, e, p, sample.lastState);
    ModesStayOk(b, e, p, full);
    RecoveryStaysOk(b, e, p, full.reached);
    RecoveryWindowKeepsEnd(b, e, p);
    NumbersStayOk(b, e);
    var c := Conclude(b, e, sampler, sample);
    WindowStaysOk(b.config, b.window, c.modes.mode, full.reached,
                  TargetAt(b, e, p, c.minRtt.value, c.modes.windowGain),
                  sampler.tracker.heights.best.sample.extraAcked, p.bytesAcked, sampler.totalBytesAcked);
    SamplerExtrasKeepInv(sampler, LeastUnacked(e));
    SamplerExtrasKeepInv(OnAppLimited(sampler), LeastUnacked(e));
  }

  lemma RecoveryWindowKeepsEnd(b: Bbr, e: Congestion, p: Path)
    ensures var r := RecoveryStep(b, e);
            var q := NextRecoveryWindow(r, b.config.minWindow, b.datagram, InFlightAfter(e), p.bytesAcked, p.bytesLost);
            q.endAt == r.endAt && q.state == r.state
  {
    hide RecoveryStep;
    hide InFlightAfter;
  }

  lemma SentKeepsInv(b: Bbr, e: Event)
    requires Inv(b) && Allowed(b, e) && e.Sent?
    ensures Inv(Step(b, e))
  {
    hide SP.Inv;
    SP.SentKeepsInv(b.sampler, e.time, e.number, e.bytes, e.bytesInFlight, e.isRetransmittable);
    assert OnPacketSent(b.sampler, e.time, e.number, e.bytes, e.bytesInFlight, e.isRetransmittable).totalBytesAcked
        == b.sampler.totalBytesAcked;
  }

  lemma StepKeepsInv(b: Bbr, e: Event)
    requires Inv(b) && Allowed(b, e)
    ensures Inv(Step(b, e))
  {
    match e {
      case Sent(_, _, _, _, _) =>
        SentKeepsInv(b, e);
      case Congested(c) =>
        hide Inv;
        hide Conclude;
        hide SamplerOutcome;
        SamplerDelivers(b, c);
        var (sampler, sample) := SamplerOutcome(b, c);
        ConcludeKeepsInv(b, c, sampler, sample);
      case DatagramSize(_) =>
    }
  }

  lemma InitialIsOk(c: Config, datagram: nat)
    requires ConfigOk(c)
    ensures Inv(InitialBbr(c, datagram))
  {
  }

  /** The invariant holds in every state of every run. */
  lemma {:induction false} AlwaysInv(c: Config, datagram: nat, states: seq<Bbr>, events: seq<Event>, i: nat)
    requires IsRun(c, datagram, states, events) && i < |states|
    ensures Inv(states[i]) && states[i].config == c
  {
    hide Inv;
    hide InitialBbr;
    if i == 0 {
      InitialIsOk(c, datagram);
      InitialConfig(c, datagram);
    } else {
      AlwaysInv(c, datagram, states, events, i - 1);
      assert Follows(states[i - 1], events[i - 1], states[i - 1 + 1]);
      StepKeepsInv(states[i - 1], events[i - 1]);
      StepKeepsConfig(states[i - 1], events[i - 1]);
    }
  }

  lemma InitialConfig(c: Config, datagram: nat)
    ensures InitialBbr(c, datagram).config == c
  {
  }

  lemma StepKeepsConfig(b: Bbr, e: Event)
    requires Allowed(b, e)
    ensures Step(b, e).config == b.config
  {
    hide SamplerOutcome;
  }

  /** In every reachable state the congestion window is within its limits, so a connection with nothing in flight
      can always send. */
  lemma WindowIsAlwaysBounded(c: Config, datagram: nat, states: seq<Bbr>, events: seq<Event>, i: nat)
    requires IsRun(c, datagram, states, events) && i < |states|
    ensures 0 < c.minWindow <= GetCongestionWindow(states[i]) <= c.maxWindow
    ensures states[i].window <= c.initialWindow + states[i].sampler.totalBytesAcked
  {
    hide SP.Inv;
    AlwaysInv(c, datagram, states, events, i);
    ReportedWindowIsBounded(states[i]);
  }
}
