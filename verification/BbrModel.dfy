/** The BBR sender of internal/congestion/bbr/bbr_sender.go as functions on values: one small machine for each group of
    fields, and the congestion event that drives them together. The options that nothing switches on (overshoot
    detection, drain-to-target and the two ack-aggregation options) are fixed to off. */
module BbrModel {
  import opened Common
  import opened WindowedFilters
  import opened SamplerModel
  import Pacing

  const MIN_BPS: nat := 65536
  const HIGH_GAIN: real := 2.885
  const DRAIN_GAIN: real := 1.0 / HIGH_GAIN
  const CWND_GAIN: real := 2.0
  const GAIN_CYCLE_LENGTH: nat := 8
  const BANDWIDTH_WINDOW: nat := 10
  const MIN_RTT_EXPIRY: nat := 10 * SECOND
  const PROBE_RTT_TIME: nat := 200 * MILLISECOND
  const STARTUP_GROWTH_TARGET: real := 1.25
  const STARTUP_ROUNDS: nat := 3
  const STARTUP_FULL_LOSS_COUNT: nat := 8
  const LOSS_THRESHOLD: real := 0.02
  const MAX_BURST_PACKETS: nat := 3

  /** The windows of a connection, quic-go's MaxPacketBufferSize, InitialPacketSizeIPv4 and MinPacingDelay. */
  datatype Config = Config(
    initialWindow: nat,
    maxWindow: nat,
    minWindow: nat,
    packetBuffer: nat,
    initialPacketSize: nat,
    minPacingDelay: nat)

  /** The integer part, as a conversion from a float gives it. */
  function Trunc(x: real): int { if x >= 0.0 then x.Floor else -((-x).Floor) }

  /** A number of bytes times a gain. */
  function Scale(gain: real, bytes: int): int { Trunc(gain * bytes as real) }

  // ---------- Rounds ----------

  datatype Rounds = Rounds(count: nat, end: int)

  predicate StartsRound(r: Rounds, lastAcked: int) { r.end == INVALID_PACKET || lastAcked > r.end }

  /** `updateRoundTripCounter`. */
  function NextRounds(r: Rounds, lastSent: int, lastAcked: int): Rounds {
    if StartsRound(r, lastAcked) then Rounds(r.count + 1, lastSent) else r
  }

  // ---------- Recovery ----------

  datatype RecoveryState = NotInRecovery | Conservation | Growth

  datatype Recovery = Recovery(state: RecoveryState, endAt: int, window: int)

  /** Recovery is only for connections at full bandwidth; it begins with an ack-carrying event that has losses. */
  predicate EntersRecovery(r: Recovery, isAtFullBandwidth: bool, hasLosses: bool) {
    isAtFullBandwidth && hasLosses && r.state == NotInRecovery
  }

  /** `updateRecoveryState`; entering recovery sets the window to 0, which `NextRecoveryWindow` replaces. */
  function NextRecovery(r: Recovery, isAtFullBandwidth: bool, lastSent: int, lastAcked: int, hasLosses: bool,
                        isRoundStart: bool): Recovery
  {
    if !isAtFullBandwidth then r
    else if EntersRecovery(r, isAtFullBandwidth, hasLosses) then Recovery(Conservation, lastSent, 0)
    else
      var endAt := if hasLosses then lastSent else r.endAt;
      if r.state == NotInRecovery then r.(endAt := endAt)
      else if !hasLosses && lastAcked > endAt then Recovery(NotInRecovery, endAt, r.window)
      else if r.state == Conservation && isRoundStart then Recovery(Growth, endAt, r.window)
      else r.(endAt := endAt)
  }

  /** `calculateRecoveryWindow`. */
  function NextRecoveryWindow(r: Recovery, minWindow: nat, datagram: nat, bytesInFlight: int, bytesAcked: int,
                              bytesLost: int): Recovery
  {
    if r.state == NotInRecovery then r
    else if r.window == 0 then r.(window := Max(minWindow, bytesInFlight + bytesAcked))
    else
      var w := if r.window >= bytesLost then r.window - bytesLost else datagram;
      var w := if r.state == Growth then w + bytesAcked else w;
      r.(window := Max(minWindow, Max(w, bytesInFlight + bytesAcked)))
  }

  // ---------- The path model: bandwidth, RTT and losses ----------

  const RATE: Bandwidth -> int := (b: Bandwidth) => b

  datatype MinRtt = MinRtt(value: int, timestamp: Time)

  predicate Expires(r: MinRtt, now: Time, sampleRtt: int) {
    sampleRtt != INF_RTT && r.value != 0 && now > r.timestamp + MIN_RTT_EXPIRY
  }

  /** `maybeUpdateMinRtt`, unless there is no RTT sample. */
  function NextMinRtt(r: MinRtt, now: Time, sampleRtt: int): MinRtt {
    if sampleRtt != INF_RTT && (Expires(r, now, sampleRtt) || sampleRtt < r.value || r.value == 0)
    then MinRtt(sampleRtt, now) else r
  }

  /** `getMinRtt`; statsRtt is the minimum RTT of the connection's own statistics. */
  function GetMinRtt(minRtt: int, statsRtt: nat): int {
    if minRtt != 0 then minRtt else if statsRtt == 0 then 100 * MILLISECOND else statsRtt
  }

  function NextMaxBandwidth(e: Estimates<Bandwidth>, round: nat, hasAckedBytes: bool, sample: EventSample)
    : Estimates<Bandwidth>
  {
    if hasAckedBytes && (!sample.isAppLimited || sample.maxBandwidth > e.best.sample)
    then Updated(RATE, BANDWIDTH_WINDOW, e, sample.maxBandwidth, round) else e
  }

  /** `bdpFromRttAndBandwidth`; the product is an int64. */
  function Bdp(rtt: int, bandwidth: Bandwidth): int { TruncDiv(TruncDiv(Wrap64(rtt * bandwidth), 8), SECOND) }

  /** `getTargetCongestionWindow`. */
  function TargetWindow(c: Config, rtt: int, bandwidth: Bandwidth, gain: real): int {
    var window := Scale(gain, Bdp(rtt, bandwidth));
    Max(if window == 0 then Scale(gain, c.initialWindow) else window, c.minWindow)
  }

  /** Whether the latest sample was app-limited, and whether any was not. */
  datatype Limits = Limits(lastSampleIsAppLimited: bool, hasNonAppLimitedSample: bool)

  function NextLimits(l: Limits, last: SendState): Limits {
    if last.isValid then Limits(last.isAppLimited, l.hasNonAppLimitedSample || !last.isAppLimited) else l
  }

  datatype Losses = Losses(events: nat, bytes: int)

  function NextLosses(l: Losses, hasLosses: bool, bytesLost: int): Losses {
    if hasLosses then Losses(l.events + 1, l.bytes + bytesLost) else l
  }

  // ---------- Full bandwidth ----------

  datatype FullBandwidth = FullBandwidth(reached: bool, roundsWithoutGain: nat, bandwidthAtLastRound: Bandwidth)

  /** `shouldExitStartupDueToLoss`. */
  predicate TooMuchLoss(l: Losses, last: SendState) {
    && l.events >= STARTUP_FULL_LOSS_COUNT && last.isValid
    && last.bytesInFlight > 0 && l.bytes > 0
    && l.bytes > (last.bytesInFlight as real * LOSS_THRESHOLD).Floor
  }

  predicate Gained(f: FullBandwidth, estimate: Bandwidth) {
    estimate >= (f.bandwidthAtLastRound as real * STARTUP_GROWTH_TARGET).Floor
  }

  /** `checkIfFullBandwidthReached`. */
  function CheckedFullBandwidth(f: FullBandwidth, estimate: Bandwidth, isAppLimited: bool, tooMuchLoss: bool)
    : FullBandwidth
  {
    if isAppLimited then f
    else if Gained(f, estimate) then FullBandwidth(f.reached, 0, estimate)
    else
      var rounds := f.roundsWithoutGain + 1;
      FullBandwidth(f.reached || rounds >= STARTUP_ROUNDS || tooMuchLoss, rounds, f.bandwidthAtLastRound)
  }

  // ---------- Modes ----------

  datatype Mode = Startup | Drain | ProbeBw | ProbeRtt

  datatype Modes = Modes(
    mode: Mode,
    pacingGain: real,
    windowGain: real,
    cycleOffset: nat,
    lastCycleStart: Time,
    exitingQuiescence: bool,
    exitProbeRttAt: Time,
    probeRttRoundPassed: bool)

  function CycleGain(offset: nat): real { if offset == 0 then 1.25 else if offset == 1 then 0.75 else 1.0 }

  /** `updateGainCyclePhase`; belowProbe and belowTarget compare the bytes in flight, before and after the event, with
      the target windows of the current gain and of gain 1. */
  function NextCycle(m: Modes, now: Time, rtt: int, hasLosses: bool, belowProbe: bool, belowTarget: bool): Modes {
    var advance := if m.pacingGain < 1.0 && belowTarget then true
                   else if m.pacingGain > 1.0 && !hasLosses && belowProbe then false
                   else now > m.lastCycleStart + rtt;
    if advance then
      var offset := (m.cycleOffset + 1) % GAIN_CYCLE_LENGTH;
      m.(cycleOffset := offset, lastCycleStart := now, pacingGain := CycleGain(offset))
    else m
  }

  function EnterStartup(m: Modes): Modes { m.(mode := Startup, pacingGain := HIGH_GAIN, windowGain := CWND_GAIN) }

  /** `enterProbeBandwidthMode`: the random draw picks a phase of the gain cycle other than 1. */
  function EnterProbeBw(m: Modes, now: Time, draw: nat): Modes {
    var d := draw % (GAIN_CYCLE_LENGTH - 1);
    var offset := if d >= 1 then d + 1 else d;
    m.(mode := ProbeBw, windowGain := CWND_GAIN, cycleOffset := offset, lastCycleStart := now,
       pacingGain := CycleGain(offset))
  }

  /** `maybeExitStartupOrDrain`. */
  function LeaveStartupOrDrain(m: Modes, isAtFullBandwidth: bool, belowTarget: bool, now: Time, draw: nat): Modes {
    var m := if m.mode == Startup && isAtFullBandwidth
             then m.(mode := Drain, pacingGain := DRAIN_GAIN, windowGain := CWND_GAIN) else m;
    if m.mode == Drain && belowTarget then EnterProbeBw(m, now, draw) else m
  }

  /** The first half of `maybeEnterOrExitProbeRtt`. */
  function MaybeEnterProbeRtt(m: Modes, minRttExpired: bool): Modes {
    if minRttExpired && !m.exitingQuiescence && m.mode != ProbeRtt
    then m.(mode := ProbeRtt, pacingGain := 1.0, exitProbeRttAt := NO_TIME) else m
  }

  predicate LeavesProbeRtt(m: Modes, now: Time, isRoundStart: bool) {
    && m.mode == ProbeRtt && m.exitProbeRttAt != NO_TIME
    && now >= m.exitProbeRttAt && (m.probeRttRoundPassed || isRoundStart)
  }

  /** The second half of `maybeEnterOrExitProbeRtt`. */
  function StayInProbeRtt(m: Modes, isAtFullBandwidth: bool, lowInFlight: bool, now: Time, isRoundStart: bool, draw: nat)
    : Modes
  {
    if m.mode != ProbeRtt then m
    else if m.exitProbeRttAt == NO_TIME then
      if lowInFlight then m.(exitProbeRttAt := now + PROBE_RTT_TIME, probeRttRoundPassed := false) else m
    else
      var passed := m.(probeRttRoundPassed := m.probeRttRoundPassed || isRoundStart);
      if !LeavesProbeRtt(m, now, isRoundStart) then passed
      else if isAtFullBandwidth then EnterProbeBw(passed, now, draw)
      else EnterStartup(passed)
  }

  // ---------- The sender ----------

  datatype Bbr = Bbr(
    config: Config,
    modes: Modes,
    full: FullBandwidth,
    rounds: Rounds,
    recovery: Recovery,
    losses: Losses,
    limits: Limits,
    minRtt: MinRtt,
    maxBandwidth: Estimates<Bandwidth>,
    sampler: Sampler,
    lastSent: int,
    bytesInFlight: int,
    window: int,
    pacingRate: int,
    datagram: nat,
    pacer: Pacing.State)

  function InitialBbr(c: Config, datagram: nat): Bbr {
    Bbr(c,
        Modes(Startup, HIGH_GAIN, CWND_GAIN, 0, NO_TIME, false, NO_TIME, false),
        FullBandwidth(false, 0, 0),
        Rounds(0, INVALID_PACKET),
        Recovery(NotInRecovery, INVALID_PACKET, c.maxWindow),
        Losses(0, 0),
        Limits(false, false),
        MinRtt(0, NO_TIME),
        Same(Entry(0, 0)),
        InitialSampler(BANDWIDTH_WINDOW),
        INVALID_PACKET,
        0,
        c.initialWindow,
        0,
        datagram,
        Pacing.State(Pacing.MAX_BURST_PACKETS * c.initialPacketSize, c.initialPacketSize, NO_TIME, c.minPacingDelay))
  }

  function GetCongestionWindow(b: Bbr): int {
    if b.modes.mode == ProbeRtt then b.config.minWindow
    else if b.recovery.state != NotInRecovery then Min(b.window, b.recovery.window)
    else b.window
  }

  /** `bandwidthForPacer`. */
  function BandwidthForPacer(estimate: Bandwidth, gain: real): nat {
    var bps := Trunc(estimate as real * gain / 8.0);
    if bps < MIN_BPS then MIN_BPS else bps
  }

  function PacerRate(b: Bbr): nat { BandwidthForPacer(b.maxBandwidth.best.sample, b.modes.windowGain) }

  /** `HasPacingBudget`, which asks for a datagram of the sender's size, not of the pacer's. */
  predicate HasPacingBudget(b: Bbr, now: Time) { Pacing.Budget(b.pacer, PacerRate(b), now) >= b.datagram }

  function TimeUntilSend(b: Bbr): Time {
    Pacing.TimeUntilSend(b.pacer, PacerRate(b))
  }

  /** The condition under which `maybeApplimited` reports the connection as app-limited. */
  predicate FallsIdle(b: Bbr, bytesInFlight: nat) {
    var window := GetCongestionWindow(b);
    var drainLimited := b.modes.mode == Drain && bytesInFlight > window / 2;
    bytesInFlight < window && (!drainLimited || window - bytesInFlight > MAX_BURST_PACKETS * b.datagram)
  }

  /** `calculatePacingRate`. */
  function NextPacingRate(rate: int, gain: real, estimate: Bandwidth, isAtFullBandwidth: bool, initialWindow: nat,
                          statsRtt: nat): int
  {
    if estimate == 0 then rate
    else
      var target := Scale(gain, estimate);
      if isAtFullBandwidth then target
      else if rate == 0 && statsRtt != 0 then BandwidthFromDelta(initialWindow, statsRtt)
      else Max(rate, target)
  }

  /** `calculateCongestionWindow`. */
  function NextWindow(c: Config, window: int, mode: Mode, isAtFullBandwidth: bool, target: int, ackHeight: int,
                      bytesAcked: int, totalAcked: nat): int
  {
    if mode == ProbeRtt then window
    else
      var w := if isAtFullBandwidth then Min(target + ackHeight, window + bytesAcked)
               else if window < target || totalAcked < c.initialWindow then window + bytesAcked
               else window;
      Min(Max(w, c.minWindow), c.maxWindow)
  }

  function TotalBytes(ps: seq<PacketInfo>): nat {
    if ps == [] then 0 else TotalBytes(ps[..|ps| - 1]) + ps[|ps| - 1].bytes
  }

  /** A call of `OnCongestionEventEx`, with the RTT statistics and the random draw as inputs. */
  datatype Congestion = Congestion(
    priorInFlight: nat,
    time: Time,
    acked: seq<PacketInfo>,
    lost: seq<PacketInfo>,
    statsRtt: nat,
    draw: nat)

  /** The source indexes the last packet of the event, so there has to be one. */
  predicate HasPackets(e: Congestion) { e.acked != [] || e.lost != [] }

  predicate HasLosses(e: Congestion) { e.lost != [] }

  function LastAcked(e: Congestion): int
    requires e.acked != []
  {
    e.acked[|e.acked| - 1].number
  }

  predicate IsRoundStart(b: Bbr, e: Congestion) { e.acked != [] && StartsRound(b.rounds, LastAcked(e)) }

  function LeastUnacked(e: Congestion): int
    requires HasPackets(e)
  {
    if e.acked != [] then LastAcked(e) - 2 else e.lost[|e.lost| - 1].number + 1
  }

  function InFlightAfter(e: Congestion): int { e.priorInFlight - TotalBytes(e.acked) - TotalBytes(e.lost) }

  /** The round counter after the event; entering recovery extends the round. */
  function RoundsAfter(b: Bbr, e: Congestion): Rounds {
    if e.acked == [] then b.rounds
    else
      var r := NextRounds(b.rounds, b.lastSent, LastAcked(e));
      if EntersRecovery(b.recovery, b.full.reached, HasLosses(e)) then r.(end := b.lastSent) else r
  }

  /** The recovery machine's step; the window is computed at the end of the event. */
  function RecoveryStep(b: Bbr, e: Congestion): Recovery {
    if e.acked == [] then b.recovery
    else NextRecovery(b.recovery, b.full.reached, b.lastSent, LastAcked(e), HasLosses(e), IsRoundStart(b, e))
  }

  /** The sampler once `maybeApplimited` has run. */
  function SamplerBefore(b: Bbr, e: Congestion): Sampler {
    if FallsIdle(b, e.priorInFlight) then OnAppLimited(b.sampler) else b.sampler
  }

  /** What the sampler makes of the event. */
  function SamplerOutcome(b: Bbr, e: Congestion): (Sampler, EventSample) {
    OnCongestionEvent(SamplerBefore(b, e), e.time, e.acked, e.lost, b.maxBandwidth.best.sample, INF_BANDWIDTH,
                      RoundsAfter(b, e).count)
  }

  /** The model of the path after the event, for any outcome of the sampler. */
  datatype Path = Path(
    maxBandwidth: Estimates<Bandwidth>,
    minRtt: MinRtt,
    limits: Limits,
    losses: Losses,
    bytesAcked: int,
    bytesLost: int,
    minRttExpired: bool)

  function PathAfter(b: Bbr, e: Congestion, sampler: Sampler, sample: EventSample): Path {
    var bytesAcked := sampler.totalBytesAcked - b.sampler.totalBytesAcked;
    var bytesLost := sampler.totalBytesLost - b.sampler.totalBytesLost;
    Path(NextMaxBandwidth(b.maxBandwidth, RoundsAfter(b, e).count, bytesAcked != 0, sample),
         NextMinRtt(b.minRtt, e.time, sample.rtt),
         NextLimits(b.limits, sample.lastState),
         NextLosses(b.losses, HasLosses(e), bytesLost),
         bytesAcked, bytesLost,
         Expires(b.minRtt, e.time, sample.rtt))
  }

  function TargetAt(b: Bbr, e: Congestion, p: Path, rtt: int, gain: real): int {
    TargetWindow(b.config, GetMinRtt(rtt, e.statsRtt), p.maxBandwidth.best.sample, gain)
  }

  function FullAfter(b: Bbr, e: Congestion, p: Path, last: SendState): FullBandwidth {
    if IsRoundStart(b, e) && !b.full.reached
    then CheckedFullBandwidth(b.full, p.maxBandwidth.best.sample, p.limits.lastSampleIsAppLimited,
                              TooMuchLoss(p.losses, last))
    else b.full
  }

  /** The modes up to the point where PROBE_RTT has been entered but not yet left. */
  function ModesBeforeStay(b: Bbr, e: Congestion, p: Path, isAtFullBandwidth: bool): Modes {
    var belowTarget := InFlightAfter(e) <= TargetAt(b, e, p, p.minRtt.value, 1.0);
    var m := if b.modes.mode == ProbeBw
             then NextCycle(b.modes, e.time, GetMinRtt(p.minRtt.value, e.statsRtt), HasLosses(e),
                            e.priorInFlight < TargetAt(b, e, p, p.minRtt.value, b.modes.pacingGain), belowTarget)
             else b.modes;
    MaybeEnterProbeRtt(LeaveStartupOrDrain(m, isAtFullBandwidth, belowTarget, e.time, e.draw), p.minRttExpired)
  }

  function LowInFlight(b: Bbr, e: Congestion): bool {
    InFlightAfter(e) < b.config.minWindow + b.config.packetBuffer
  }

  function ModesAfter(b: Bbr, e: Congestion, m: Modes, isAtFullBandwidth: bool): Modes {
    StayInProbeRtt(m, isAtFullBandwidth, LowInFlight(b, e), e.time, IsRoundStart(b, e), e.draw).(exitingQuiescence := false)
  }

  /** The event for any outcome of the sampler. */
  function Conclude(b: Bbr, e: Congestion, sampler: Sampler, sample: EventSample): Bbr
    requires HasPackets(e)
  {
    var path := PathAfter(b, e, sampler, sample);
    var estimate := path.maxBandwidth.best.sample;
    var full := FullAfter(b, e, path, sample.lastState);
    var entered := ModesBeforeStay(b, e, path, full.reached);
    var modes := ModesAfter(b, e, entered, full.reached);
    var leaves := LeavesProbeRtt(entered, e.time, IsRoundStart(b, e));
    var minRtt := if leaves then path.minRtt.(timestamp := e.time) else path.minRtt;
    var target := TargetAt(b, e, path, minRtt.value, modes.windowGain);
    var tracked := if entered.mode == ProbeRtt then OnAppLimited(sampler) else sampler;
    Bbr(b.config, modes, full, RoundsAfter(b, e),
        NextRecoveryWindow(RecoveryStep(b, e), b.config.minWindow, b.datagram, InFlightAfter(e), path.bytesAcked,
                           path.bytesLost),
        if IsRoundStart(b, e) then Losses(0, 0) else path.losses,
        path.limits, minRtt, path.maxBandwidth,
        RemoveObsolete(tracked, LeastUnacked(e)),
        b.lastSent, InFlightAfter(e),
        NextWindow(b.config, b.window, modes.mode, full.reached, target, sampler.tracker.heights.best.sample.extraAcked,
                   path.bytesAcked, sampler.totalBytesAcked),
        NextPacingRate(b.pacingRate, modes.pacingGain, estimate, full.reached, b.config.initialWindow, e.statsRtt),
        b.datagram, b.pacer)
  }

  /** `OnCongestionEventEx`. */
  function OnCongestion(b: Bbr, e: Congestion): Bbr
    requires HasPackets(e)
  {
    var (sampler, sample) := SamplerOutcome(b, e);
    Conclude(b, e, sampler, sample)
  }

  /** `OnPacketSent`. */
  function OnSent(b: Bbr, time: Time, bytesInFlight: nat, number: nat, bytes: nat, isRetransmittable: bool): Bbr {
    b.(pacer := Pacing.Sent(b.pacer, BandwidthForPacer(b.maxBandwidth.best.sample, b.modes.windowGain), time, bytes),
       lastSent := number,
       bytesInFlight := bytesInFlight,
       modes := b.modes.(exitingQuiescence := b.modes.exitingQuiescence || bytesInFlight == 0),
       sampler := OnPacketSent(b.sampler, time, number, bytes, bytesInFlight, isRetransmittable))
  }

  /** `SetMaxDatagramSize`, whose caller must not shrink the size; the congestion window stays as it is. */
  function SetMaxDatagramSize(b: Bbr, s: nat): Bbr { b.(datagram := s, pacer := b.pacer.(datagram := s)) }
}
