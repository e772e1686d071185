/** The modes of the BBR sender over whole runs: DRAIN, the gain cycle of PROBE_BW and the way into PROBE_RTT. */
module BbrModes {
  import opened Common
  import opened SamplerModel
  import opened BbrModel
  import opened BbrProofs
  import opened BbrPath
  import BbrRuns
  import SP = SamplerProofs

  /** The model of the path once the event's samples are taken in. */
  function EventPath(b: Bbr, e: Congestion): Path {
    var (sampler, sample) := SamplerOutcome(b, e);
    PathAfter(b, e, sampler, sample)
  }

  /** The target window for some gain, as the event sees it. */
  function EventTarget(b: Bbr, e: Congestion, gain: real): int {
    TargetAt(b, e, EventPath(b, e), EventPath(b, e).minRtt.value, gain)
  }

  /** The modes depend on the rest of the sender only through the path and the full-bandwidth flag. */
  lemma EventOnModes(b: Bbr, e: Congestion)
    requires HasPackets(e)
    ensures var c, p := OnCongestion(b, e), EventPath(b, e);
            && c.modes == ModesAfter(b, e, ModesBeforeStay(b, e, p, c.full.reached), c.full.reached)
            && c.minRtt.value == p.minRtt.value
  {
    hide SamplerOutcome;
    hide PathAfter;
    hide FullAfter;
    hide ModesBeforeStay;
    hide ModesAfter;
    hide NextPacingRate;
    hide NextWindow;
    hide NextRecoveryWindow;
    hide RecoveryStep;
    hide RoundsAfter;
    hide InFlightAfter;
    hide IsRoundStart;
    hide TargetAt;
  }

  /** The event leaves no more in flight than the bandwidth-delay product. */
  ghost predicate IsDrainedAt(b: Bbr, e: Event) {
    e.Congested? && InFlightAfter(e.congestion) <= EventTarget(b, e.congestion, 1.0)
  }

  /** More than a minimum RTT has passed since the given time. */
  ghost predicate RttPassed(c: Bbr, e: Congestion, start: Time) {
    e.time > start + GetMinRtt(c.minRtt.value, e.statsRtt)
  }

  // ---------- DRAIN ----------

  lemma StepOnDrain(b: Bbr, e: Event)
    requires Inv(b) && Allowed(b, e)
    ensures var c := Step(b, e);
            && (c.modes.mode == Drain ==> b.modes.mode == Startup || b.modes.mode == Drain)
            && (c.modes.mode == Drain && e.Congested? ==> !IsDrainedAt(b, e))
            && (c.modes.mode == ProbeBw && b.modes.mode != ProbeBw ==> IsDrainedAt(b, e) || EndsProbeRtt(b, c))
            && (c.modes.mode == Startup ==> b.modes.mode == Startup || EndsProbeRtt(b, c))
  {
    hide SP.Inv;
    hide OnCongestion;
    hide EventPath;
    hide InFlightAfter;
    hide LowInFlight;
    hide IsRoundStart;
    hide TargetAt;
    hide GetMinRtt;
    if e.Congested? {
      EventOnModes(b, e.congestion);
    }
  }

  /** DRAIN happens at most once: between any two states in DRAIN the sender never leaves it, and no event of that stretch
      finds the queue drained. */
  lemma {:induction false} DrainIsOneStretch(c: Config, datagram: nat, states: seq<Bbr>, events: seq<Event>, i: nat, j: nat)
    requires IsRun(c, datagram, states, events) && i <= j < |states|
    requires states[i].modes.mode == Drain && states[j].modes.mode == Drain
    ensures forall k :: i <= k <= j ==> states[k].modes.mode == Drain
    ensures forall k :: i <= k < j ==> !IsDrainedAt(states[k], events[k])
  {
    hide SP.Inv;
    hide Step;
    hide Allowed;
    hide IsDrainedAt;
    if i < j {
      AlwaysInv(c, datagram, states, events, i);
      BbrRuns.FullBandwidthIsForever(c, datagram, states, events, i, j - 1);
      AlwaysInv(c, datagram, states, events, j - 1);
      assert Follows(states[j - 1], events[j - 1], states[j - 1 + 1]);
      StepOnDrain(states[j - 1], events[j - 1]);
      assert !events[j - 1].Congested? ==> !IsDrainedAt(states[j - 1], events[j - 1]) by {
        OnlyEventsDrain(states[j - 1], events[j - 1]);
      }
      DrainIsOneStretch(c, datagram, states, events, i, j - 1);
    }
  }

  lemma OnlyEventsDrain(b: Bbr, e: Event)
    ensures IsDrainedAt(b, e) ==> e.Congested?
  {
  }

  /** On the way from STARTUP to PROBE_BW the queue that STARTUP built up is drained: some event finds no more in flight
      than the bandwidth-delay product, or a whole PROBE_RTT stay ends. */
  lemma {:induction false} QueueIsDrainedBeforeProbing(c: Config, datagram: nat, states: seq<Bbr>, events: seq<Event>, i: nat, j: nat)
    returns (k: nat)
    requires IsRun(c, datagram, states, events) && i <= j < |states|
    requires states[i].modes.mode == Startup && states[j].modes.mode == ProbeBw
    ensures i <= k < j && (IsDrainedAt(states[k], events[k]) || EndsProbeRtt(states[k], states[k + 1]))
  {
    hide Inv;
    hide Step;
    hide Allowed;
    hide IsDrainedAt;
    k := j - 1;
    AlwaysInv(c, datagram, states, events, k);
    assert Follows(states[k], events[k], states[k + 1]);
    StepOnDrain(states[k], events[k]);
    if states[k].modes.mode == ProbeBw {
      k := QueueIsDrainedBeforeProbing(c, datagram, states, events, i, k);
    }
  }

  // ---------- The gain cycle ----------

  ghost predicate InPhase(b: Bbr, offset: nat) { b.modes.mode == ProbeBw && b.modes.cycleOffset == offset }

  /** What ends a phase: a minimum RTT, in the 1.25 phase only once the extra bytes are in flight or losses show that they
      cannot be; the 0.75 phase also ends as soon as the queue is drained. */
  ghost predicate PhaseIsOver(b: Bbr, e: Event, c: Bbr, offset: nat, start: Time) {
    e.Congested? &&
    var ended := RttPassed(c, e.congestion, start);
    if offset == 0
    then ended && (HasLosses(e.congestion) || e.congestion.priorInFlight >= EventTarget(b, e.congestion, 1.25))
    else ended || (offset == 1 && IsDrainedAt(b, e))
  }

  lemma StepOnPhase(b: Bbr, e: Event, offset: nat)
    requires Inv(b) && Allowed(b, e)
    ensures var c := Step(b, e);
            && (!InPhase(b, offset) && InPhase(c, offset) ==>
                  e.Congested? && c.modes.lastCycleStart == e.congestion.time)
            && (InPhase(b, offset) && InPhase(c, offset) ==>
                  c.modes.lastCycleStart == b.modes.lastCycleStart && !PhaseIsOver(b, e, c, offset, b.modes.lastCycleStart))
            && (InPhase(b, offset) && c.modes.mode == ProbeBw && !InPhase(c, offset) ==>
                  && InPhase(c, (offset + 1) % GAIN_CYCLE_LENGTH)
                  && PhaseIsOver(b, e, c, offset, b.modes.lastCycleStart))
  {
    hide SP.Inv;
    hide OnCongestion;
    hide EventPath;
    hide InFlightAfter;
    hide LowInFlight;
    hide IsRoundStart;
    hide TargetAt;
    hide GetMinRtt;
    if e.Congested? {
      EventOnModes(b, e.congestion);
    }
  }

  /** One whole phase: entered with event i and kept up to state j. */
  ghost predicate IsPhase(states: seq<Bbr>, offset: nat, i: nat, j: nat)
    requires i < j < |states|
  {
    !InPhase(states[i], offset) && forall k :: i < k <= j ==> InPhase(states[k], offset)
  }

  lemma {:induction false} PhaseStartHolds(c: Config, datagram: nat, states: seq<Bbr>, events: seq<Event>, offset: nat, i: nat, j: nat)
    requires IsRun(c, datagram, states, events) && i < j < |states| && IsPhase(states, offset, i, j)
    ensures events[i].Congested? && states[j].modes.lastCycleStart == events[i].congestion.time
    ensures forall k :: i < k < j ==>
                          !PhaseIsOver(states[k], events[k], states[k + 1], offset, events[i].congestion.time)
  {
    hide Inv;
    hide Step;
    hide Allowed;
    hide PhaseIsOver;
    AlwaysInv(c, datagram, states, events, j - 1);
    assert Follows(states[j - 1], events[j - 1], states[j - 1 + 1]);
    StepOnPhase(states[j - 1], events[j - 1], offset);
    if i < j - 1 {
      PhaseStartHolds(c, datagram, states, events, offset, i, j - 1);
    }
  }

  /** On every run, a phase of the gain cycle that is not cut short by PROBE_RTT ends with the first event that finds it
      over, counted from the event that began it, and the next phase of the cycle follows. */
  lemma PhaseEndsWhenOver(c: Config, datagram: nat, states: seq<Bbr>, events: seq<Event>, offset: nat, i: nat, j: nat)
    requires IsRun(c, datagram, states, events) && i < j < |events| && IsPhase(states, offset, i, j)
    requires states[j + 1].modes.mode == ProbeBw && !InPhase(states[j + 1], offset)
    ensures events[i].Congested? && InPhase(states[j + 1], (offset + 1) % GAIN_CYCLE_LENGTH)
    ensures PhaseIsOver(states[j], events[j], states[j + 1], offset, events[i].congestion.time)
    ensures forall k :: i < k < j ==>
                          !PhaseIsOver(states[k], events[k], states[k + 1], offset, events[i].congestion.time)
  {
    hide Inv;
    hide Step;
    hide Allowed;
    hide PhaseIsOver;
    PhaseStartHolds(c, datagram, states, events, offset, i, j);
    AlwaysInv(c, datagram, states, events, j);
    assert Follows(states[j], events[j], states[j + 1]);
    StepOnPhase(states[j], events[j], offset);
  }

  /** On every run, the 0.75 phase is reached only from the 1.25 phase. */
  lemma {:induction false} DrainingFollowsProbing(c: Config, datagram: nat, states: seq<Bbr>, events: seq<Event>, j: nat)
    returns (i: nat)
    requires IsRun(c, datagram, states, events) && j < |states| && InPhase(states[j], 1)
    ensures i < j && InPhase(states[i], 0) && forall k :: i < k <= j ==> InPhase(states[k], 1)
  {
    hide SP.Inv;
    hide Step;
    hide Allowed;
    assert states[0] == InitialBbr(c, datagram);
    i := j - 1;
    AlwaysInv(c, datagram, states, events, i);
    assert Follows(states[i], events[i], states[i + 1]);
    BbrRuns.StepOnModes(states[i], events[i]);
    if InPhase(states[i], 1) {
      i := DrainingFollowsProbing(c, datagram, states, events, i);
    }
  }

  /** The random draw is fair: each phase other than the 0.75 phase belongs to exactly one of the seven residues. */
  lemma EveryOtherPhaseIsDrawn(m: Modes, now: Time, offset: nat) returns (d: nat)
    requires offset < GAIN_CYCLE_LENGTH && offset != 1
    ensures d < 7 && forall draw: nat :: EnterProbeBw(m, now, draw).cycleOffset == offset <==> draw % 7 == d
  {
    d := if offset == 0 then 0 else offset - 1;
  }

  // ---------- Entering PROBE_RTT ----------

  lemma StepIntoProbeRtt(b: Bbr, e: Event)
    requires Inv(b) && Allowed(b, e) && b.modes.mode != ProbeRtt
    ensures Step(b, e).modes.mode == ProbeRtt <==>
              && HasRtt(b, e) && b.minRtt.value != 0
              && e.congestion.time > b.minRtt.timestamp + MIN_RTT_EXPIRY && !b.modes.exitingQuiescence
  {
    hide SP.Inv;
    hide OnCongestion;
    hide SamplerOutcome;
    hide InFlightAfter;
    hide LowInFlight;
    hide IsRoundStart;
    hide TargetAt;
    hide GetMinRtt;
    hide RoundsAfter;
    hide NextMaxBandwidth;
    hide NextLimits;
    hide NextMinRtt;
    hide NextLosses;
    if e.Congested? {
      EventOnModes(b, e.congestion);
    }
  }

  /** A packet was sent with nothing in flight since the last congestion event. */
  ghost predicate LeavesQuiescence(events: seq<Event>, n: nat)
    requires n <= |events|
  {
    n > 0 && match events[n - 1]
             case Sent(_, bytesInFlight, _, _, _) => bytesInFlight == 0 || LeavesQuiescence(events, n - 1)
             case Congested(_) => false
             case DatagramSize(_) => LeavesQuiescence(events, n - 1)
  }

  lemma StepOnQuiescence(b: Bbr, e: Event)
    requires Allowed(b, e)
    ensures Step(b, e).modes.exitingQuiescence ==
              match e
              case Sent(_, bytesInFlight, _, _, _) => bytesInFlight == 0 || b.modes.exitingQuiescence
              case Congested(_) => false
              case DatagramSize(_) => b.modes.exitingQuiescence
  {
    hide SamplerOutcome;
    hide StayInProbeRtt;
  }

  lemma {:induction false} QuiescenceIsTracked(c: Config, datagram: nat, states: seq<Bbr>, events: seq<Event>, n: nat)
    requires IsRun(c, datagram, states, events) && n < |states|
    ensures states[n].modes.exitingQuiescence == LeavesQuiescence(events, n)
  {
    hide Step;
    hide Allowed;
    if n > 0 {
      QuiescenceIsTracked(c, datagram, states, events, n - 1);
      assert Follows(states[n - 1], events[n - 1], states[n - 1 + 1]);
      StepOnQuiescence(states[n - 1], events[n - 1]);
    }
  }

  /** On every run, PROBE_RTT is entered exactly by an event that has an RTT, comes more than ten seconds after the
      current minimum was taken or last prolonged by the end of a stay, and does not follow a send out of quiescence. */
  lemma ProbeRttIsEnteredWhenStale(c: Config, datagram: nat, states: seq<Bbr>, events: seq<Event>, j: nat)
    returns (start: nat, taken: nat, mark: nat)
    requires IsRun(c, datagram, states, events) && j < |events| && states[j].modes.mode != ProbeRtt
    ensures states[j].minRtt.value == 0 ==>
              states[j + 1].modes.mode != ProbeRtt && forall k :: 0 <= k < j ==> !HasRtt(states[k], events[k])
    ensures states[j].minRtt.value != 0 ==>
              && IsRecentMinimum(states, events, j, start, taken, mark)
              && (states[j + 1].modes.mode == ProbeRtt <==>
                    && HasRtt(states[j], events[j]) && !LeavesQuiescence(events, j)
                    && events[j].congestion.time > events[mark].congestion.time + MIN_RTT_EXPIRY)
  {
    hide Inv;
    hide Step;
    hide Allowed;
    start, taken, mark := 0, 0, 0;
    AlwaysInv(c, datagram, states, events, j);
    assert Follows(states[j], events[j], states[j + 1]);
    StepIntoProbeRtt(states[j], events[j]);
    QuiescenceIsTracked(c, datagram, states, events, j);
    if states[j].minRtt.value != 0 {
      start, taken, mark := MinRttIsRecentMinimum(c, datagram, states, events, j);
    } else {
      NoEstimateNoRtt(c, datagram, states, events, j);
    }
  }

  /** The times of congestion events do not run backwards. */
  ghost predicate InOrder(events: seq<Event>) {
    forall i, j :: 0 <= i <= j < |events| && events[i].Congested? && events[j].Congested? ==>
                     events[i].congestion.time <= events[j].congestion.time
  }

  /** Between the end of one PROBE_RTT stay and the beginning of the next lie more than ten seconds. */
  lemma ProbeRttStaysAreApart(c: Config, datagram: nat, states: seq<Bbr>, events: seq<Event>, i: nat, j: nat)
    requires IsRun(c, datagram, states, events) && InOrder(events) && i < j < |events|
    requires EndsProbeRtt(states[i], states[i + 1])
    requires states[j].modes.mode != ProbeRtt && states[j + 1].modes.mode == ProbeRtt
    ensures events[i].Congested? && events[j].Congested?
    ensures events[j].congestion.time > events[i].congestion.time + MIN_RTT_EXPIRY
  {
    hide Inv;
    hide Step;
    hide Allowed;
    AlwaysInv(c, datagram, states, events, i);
    assert Follows(states[i], events[i], states[i + 1]);
    StepOnMinRtt(states[i], events[i]);
    var _, taken, mark := ProbeRttIsEnteredWhenStale(c, datagram, states, events, j);
  }
}
