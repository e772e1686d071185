/** How the BBR sender behaves over whole runs: the mode machine, rounds, recovery, STARTUP and PROBE_RTT. */
module BbrRuns {
  import opened Common
  import opened SamplerModel
  import opened BbrModel
  import opened BbrProofs
  import SP = SamplerProofs

  // ---------- One event ----------

  predicate HasAcks(e: Event) { e.Congested? && e.congestion.acked != [] }

  /** An event that acks a packet beyond the end of the round. */
  predicate StartsRoundAt(b: Bbr, e: Event) { HasAcks(e) && LastAcked(e.congestion) > b.rounds.end }

  /** That is when a round starts. */
  lemma RoundStartIsExact(b: Bbr, e: Event)
    requires NumbersOk(b) && Allowed(b, e)
    ensures StartsRoundAt(b, e) <==> e.Congested? && IsRoundStart(b, e.congestion)
  {
  }

  predicate HasAckedLosses(e: Event) { HasAcks(e) && HasLosses(e.congestion) }

  /** What one call does to the round counter and the recovery machine. */
  lemma StepOnRounds(b: Bbr, e: Event)
    requires NumbersOk(b) && Allowed(b, e)
    ensures var c := Step(b, e);
            && c.lastSent >= b.lastSent
            && c.rounds.end >= b.rounds.end && c.recovery.endAt >= b.recovery.endAt
            && c.rounds.count == b.rounds.count + (if StartsRoundAt(b, e) then 1 else 0)
            && (StartsRoundAt(b, e) ==> c.rounds.end == b.lastSent && LastAcked(e.congestion) > b.rounds.end)
            && (!StartsRoundAt(b, e) && c.rounds.end != b.rounds.end ==>
                  b.recovery.state == NotInRecovery && c.recovery.state == Conservation && c.rounds.end == b.lastSent)
            && (b.full.reached && HasAckedLosses(e) ==> c.recovery.endAt == b.lastSent)
  {
    RoundStartIsExact(b, e);
    if e.Congested? {
      var (sampler, sample) := SamplerOutcome(b, e.congestion);
      RecoveryWindowKeepsEnd(b, e.congestion, PathAfter(b, e.congestion, sampler, sample));
    }
    hide NextRecoveryWindow;
    hide SamplerOutcome;
    hide PathAfter;
    hide FullAfter;
    hide ModesBeforeStay;
    hide ModesAfter;
    hide NextWindow;
    hide NextPacingRate;
    hide InFlightAfter;
  }

  lemma StepOnRecovery(b: Bbr, e: Event)
    requires NumbersOk(b) && RecoveryOk(b.recovery, b.full.reached, b.config.minWindow) && Allowed(b, e)
    ensures var c := Step(b, e);
            && (b.recovery.state == NotInRecovery && c.recovery.state != NotInRecovery ==>
                  HasAckedLosses(e) && b.full.reached && c.recovery.state == Conservation && c.rounds.end == b.lastSent)
            && (b.recovery.state == Conservation && c.recovery.state == Conservation ==> c.rounds.end == b.rounds.end)
            && (b.recovery.state == Conservation && c.recovery.state == Growth ==> StartsRoundAt(b, e))
            && (b.recovery.state == Growth ==> c.recovery.state != Conservation)
            && (b.recovery.state != NotInRecovery && c.recovery.state == NotInRecovery ==>
                  HasAcks(e) && !HasAckedLosses(e) && LastAcked(e.congestion) > b.recovery.endAt)
  {
    RoundStartIsExact(b, e);
    if e.Congested? {
      var (sampler, sample) := SamplerOutcome(b, e.congestion);
      RecoveryWindowKeepsEnd(b, e.congestion, PathAfter(b, e.congestion, sampler, sample));
    }
    hide NextRecoveryWindow;
    hide SamplerOutcome;
    hide PathAfter;
    hide FullAfter;
    hide ModesBeforeStay;
    hide ModesAfter;
    hide NextWindow;
    hide NextPacingRate;
    hide InFlightAfter;
  }

  /** What one call makes of the recovery machine, exactly: recovery begins with losses at full bandwidth and ends with
      the loss-free ack of a packet beyond its end mark; in between, a round start turns CONSERVATION into GROWTH. Calls
      that carry no acks, or come before full bandwidth, leave it alone. */
  lemma RecoveryStepIsExact(b: Bbr, e: Event)
    requires NumbersOk(b) && Allowed(b, e) && RecoveryOk(b.recovery, b.full.reached, b.config.minWindow)
    ensures var c := Step(b, e);
            if !HasAcks(e) || !b.full.reached then c.recovery.state == b.recovery.state && c.recovery.endAt == b.recovery.endAt
            else
              var ends := !HasAckedLosses(e) && LastAcked(e.congestion) > b.recovery.endAt;
              && c.recovery.endAt == (if HasAckedLosses(e) then b.lastSent else b.recovery.endAt)
              && (c.recovery.state == NotInRecovery <==>
                    !HasAckedLosses(e) && (b.recovery.state == NotInRecovery || ends))
              && (c.recovery.state == Growth <==>
                    !ends && (b.recovery.state == Growth || (b.recovery.state == Conservation && StartsRoundAt(b, e))))
  {
    RoundStartIsExact(b, e);
    if e.Congested? {
      var (sampler, sample) := SamplerOutcome(b, e.congestion);
      RecoveryWindowKeepsEnd(b, e.congestion, PathAfter(b, e.congestion, sampler, sample));
    }
    hide NextRecoveryWindow;
    hide IsRoundStart;
    hide SamplerOutcome;
    hide PathAfter;
    hide FullAfter;
    hide ModesBeforeStay;
    hide ModesAfter;
    hide NextWindow;
    hide NextPacingRate;
    hide InFlightAfter;
    hide RoundsAfter;
  }

  /** Marking the sampler app-limited and dropping obsolete packets leave its totals alone. */
  lemma SettledTotals(b: Bbr, e: Event)
    requires Allowed(b, e)
    ensures e.Congested? ==> Step(b, e).sampler.totalBytesAcked == SamplerOutcome(b, e.congestion).0.totalBytesAcked
  {
    hide SamplerOutcome;
    hide PathAfter;
    hide FullAfter;
    hide ModesBeforeStay;
    hide ModesAfter;
    hide NextWindow;
    hide NextPacingRate;
    hide NextRecoveryWindow;
    hide RecoveryStep;
    hide RoundsAfter;
    hide InFlightAfter;
  }

  /** Only the 1.25 phase of the gain cycle leads to the 0.75 phase. */
  lemma DrainingPhaseFollowsProbing(b: Bbr, e: Congestion, p: Path, full: bool)
    requires ModesOk(b.modes, b.full.reached)
    ensures var m := ModesAfter(b, e, ModesBeforeStay(b, e, p, full), full);
            m.mode == ProbeBw && m.cycleOffset == 1 ==>
              b.modes.mode == ProbeBw && (b.modes.cycleOffset == 0 || b.modes.cycleOffset == 1)
  {
    hide TargetAt;
    hide InFlightAfter;
    hide LowInFlight;
    hide IsRoundStart;
    hide GetMinRtt;
  }

  /** Calls other than congestion events leave modes, windows and rates alone. */
  lemma QuietStep(b: Bbr, e: Event)
    requires Allowed(b, e) && !e.Congested?
    ensures var c := Step(b, e);
            && c.full == b.full && c.window == b.window && c.pacingRate == b.pacingRate
            && c.modes == b.modes.(exitingQuiescence := c.modes.exitingQuiescence)
            && c.recovery == b.recovery && c.rounds == b.rounds
  {
  }

  lemma StepOnModes(b: Bbr, e: Event)
    requires Inv(b) && Allowed(b, e)
    ensures var c := Step(b, e);
            && (b.full.reached ==> c.full.reached)
            && (c.modes.mode == ProbeBw && c.modes.cycleOffset == 1 ==>
                  b.modes.mode == ProbeBw && (b.modes.cycleOffset == 0 || b.modes.cycleOffset == 1))
  {
    hide SP.Inv;
    if e.Congested? {
      hide SamplerOutcome;
      hide PathAfter;
      hide FullAfter;
      hide ModesBeforeStay;
      hide ModesAfter;
      hide NextWindow;
      hide NextPacingRate;
      hide NextRecoveryWindow;
      hide RecoveryStep;
      hide RoundsAfter;
      hide InFlightAfter;
      hide IsRoundStart;
      var (sampler, sample) := SamplerOutcome(b, e.congestion);
      var p := PathAfter(b, e.congestion, sampler, sample);
      FullIsLatched(b, e.congestion, p, sample.lastState);
      DrainingPhaseFollowsProbing(b, e.congestion, p, FullAfter(b, e.congestion, p, sample.lastState).reached);
    } else {
      QuietStep(b, e);
    }
  }

  lemma FullIsLatched(b: Bbr, e: Congestion, p: Path, last: SendState)
    ensures b.full.reached ==> FullAfter(b, e, p, last) == b.full
  {
  }

  /** Until full bandwidth is reached, neither the congestion window nor the pacing rate ever falls. */
  lemma StepGrows(b: Bbr, e: Event)
    requires Inv(b) && Allowed(b, e) && !Step(b, e).full.reached
    ensures Step(b, e).window >= b.window && Step(b, e).pacingRate >= b.pacingRate
  {
    hide SP.Inv;
    if e.Congested? {
      hide FullAfter;
      hide ModesBeforeStay;
      hide ModesAfter;
      hide NextWindow;
      hide NextRecoveryWindow;
      hide RecoveryStep;
      hide RoundsAfter;
      hide InFlightAfter;
      hide IsRoundStart;
      hide SamplerOutcome;
      hide TargetAt;
      hide BandwidthFromDelta;
      SamplerDelivers(b, e.congestion);
      var (sampler, sample) := SamplerOutcome(b, e.congestion);
      var c := Conclude(b, e.congestion, sampler, sample);
      var p := PathAfter(b, e.congestion, sampler, sample);
      WindowStaysOk(b.config, b.window, c.modes.mode, c.full.reached,
                    TargetAt(b, e.congestion, p, c.minRtt.value, c.modes.windowGain),
                    sampler.tracker.heights.best.sample.extraAcked, p.bytesAcked, sampler.totalBytesAcked);
    } else {
      QuietStep(b, e);
    }
  }

  // ---------- Whole runs: modes ----------

  /** Full bandwidth, once reached, is never given up, and STARTUP is never entered again. */
  lemma {:induction false} FullBandwidthIsForever(c: Config, datagram: nat, states: seq<Bbr>, events: seq<Event>, i: nat, j: nat)
    requires IsRun(c, datagram, states, events) && i <= j < |states| && states[i].full.reached
    ensures states[j].full.reached && states[j].modes.mode != Startup
  {
    hide Step;
    hide Allowed;
    AlwaysInv(c, datagram, states, events, j);
    if i < j {
      FullBandwidthIsForever(c, datagram, states, events, i, j - 1);
      AlwaysInv(c, datagram, states, events, j - 1);
      assert Follows(states[j - 1], events[j - 1], states[j - 1 + 1]);
      StepOnModes(states[j - 1], events[j - 1]);
    }
  }

  /** Until full bandwidth is reached, the congestion window and the pacing rate only grow. */
  lemma {:induction false} GrowthUntilFull(c: Config, datagram: nat, states: seq<Bbr>, events: seq<Event>, i: nat, j: nat)
    requires IsRun(c, datagram, states, events) && i <= j < |states| && !states[j].full.reached
    ensures states[i].window <= states[j].window && states[i].pacingRate <= states[j].pacingRate
  {
    hide Inv;
    hide Step;
    hide Allowed;
    if i < j {
      AlwaysInv(c, datagram, states, events, j - 1);
      assert Follows(states[j - 1], events[j - 1], states[j - 1 + 1]);
      StepOnModes(states[j - 1], events[j - 1]);
      StepGrows(states[j - 1], events[j - 1]);
      GrowthUntilFull(c, datagram, states, events, i, j - 1);
    }
  }

  // ---------- Whole runs: rounds and recovery ----------

  lemma {:induction false} MarksOnlyRise(c: Config, datagram: nat, states: seq<Bbr>, events: seq<Event>, i: nat, j: nat)
    requires IsRun(c, datagram, states, events) && i <= j < |states|
    ensures states[i].lastSent <= states[j].lastSent
    ensures states[i].rounds.end <= states[j].rounds.end && states[i].recovery.endAt <= states[j].recovery.endAt
  {
    hide SP.Inv;
    hide Step;
    hide Allowed;
    if i < j {
      MarksOnlyRise(c, datagram, states, events, i, j - 1);
      AlwaysInv(c, datagram, states, events, j - 1);
      assert Follows(states[j - 1], events[j - 1], states[j - 1 + 1]);
      StepOnRounds(states[j - 1], events[j - 1]);
    }
  }

  /** Of two events that start rounds, the later one acks a packet sent after the earlier one. */
  lemma RoundsNeedNewerAcks(c: Config, datagram: nat, states: seq<Bbr>, events: seq<Event>, i: nat, j: nat)
    requires IsRun(c, datagram, states, events) && i < j < |events|
    requires states[i + 1].rounds.count > states[i].rounds.count && states[j + 1].rounds.count > states[j].rounds.count
    ensures HasAcks(events[j]) && LastAcked(events[j].congestion) > states[i].lastSent
  {
    hide SP.Inv;
    hide Step;
    hide Allowed;
    AlwaysInv(c, datagram, states, events, i);
    AlwaysInv(c, datagram, states, events, j);
    assert Follows(states[i], events[i], states[i + 1]) && Follows(states[j], events[j], states[j + 1]);
    StepOnRounds(states[i], events[i]);
    StepOnRounds(states[j], events[j]);
    MarksOnlyRise(c, datagram, states, events, i + 1, j);
  }

  /** Event m ends a round at the last packet sent: it starts the next one, or it begins recovery. */
  ghost predicate MarksRoundEnd(states: seq<Bbr>, events: seq<Event>, m: nat)
    requires |states| == |events| + 1 && m < |events|
  {
    || StartsRoundAt(states[m], events[m])
    || (states[m].recovery.state == NotInRecovery && states[m + 1].recovery.state != NotInRecovery)
  }

  ghost predicate IsLatestRoundEnd(states: seq<Bbr>, events: seq<Event>, m: nat, n: nat)
    requires |states| == |events| + 1 && n <= |events|
  {
    m < n && MarksRoundEnd(states, events, m) && forall k :: m < k < n ==> !MarksRoundEnd(states, events, k)
  }

  lemma StepOnRoundEnd(b: Bbr, e: Event)
    requires Inv(b) && Allowed(b, e)
    ensures var c := Step(b, e);
            c.rounds.end == if StartsRoundAt(b, e) || (b.recovery.state == NotInRecovery && c.recovery.state != NotInRecovery)
                            then b.lastSent else b.rounds.end
  {
    hide SP.Inv;
    hide Step;
    StepOnRounds(b, e);
    StepOnRecovery(b, e);
  }

  /** On every run, the round under way ends with the last packet sent before the latest event that started a round or began
      recovery; before the first such event, any ack starts a round. */
  lemma {:induction false} RoundEndIsExact(c: Config, datagram: nat, states: seq<Bbr>, events: seq<Event>, n: nat) returns (m: nat)
    requires IsRun(c, datagram, states, events) && n < |states|
    ensures || (IsLatestRoundEnd(states, events, m, n) && states[n].rounds.end == LastSentBefore(events, m))
            || (states[n].rounds.end == INVALID_PACKET && forall k :: 0 <= k < n ==> !MarksRoundEnd(states, events, k))
  {
    hide Inv;
    hide Step;
    hide Allowed;
    hide StartsRoundAt;
    m := 0;
    if n > 0 {
      m := RoundEndIsExact(c, datagram, states, events, n - 1);
      AlwaysInv(c, datagram, states, events, n - 1);
      assert Follows(states[n - 1], events[n - 1], states[n - 1 + 1]);
      StepOnRoundEnd(states[n - 1], events[n - 1]);
      LastSentIsOnCalls(c, datagram, states, events, n - 1);
      if MarksRoundEnd(states, events, n - 1) {
        m := n - 1;
      }
    } else {
      assert states[0] == InitialBbr(c, datagram);
    }
  }

  /** CONSERVATION from just after event i up to state j. */
  ghost predicate ConservesBetween(states: seq<Bbr>, i: nat, j: nat)
    requires i < j < |states|
  {
    && states[i].recovery.state == NotInRecovery
    && forall k :: i < k <= j ==> states[k].recovery.state == Conservation
  }

  lemma {:induction false} RoundEndHolds(c: Config, datagram: nat, states: seq<Bbr>, events: seq<Event>, i: nat, j: nat)
    requires IsRun(c, datagram, states, events) && i < j < |states| && ConservesBetween(states, i, j)
    ensures states[j].rounds.end == states[i].lastSent
  {
    hide SP.Inv;
    hide Step;
    hide Allowed;
    AlwaysInv(c, datagram, states, events, j - 1);
    assert Follows(states[j - 1], events[j - 1], states[j - 1 + 1]);
    StepOnRecovery(states[j - 1], events[j - 1]);
    if i < j - 1 {
      RoundEndHolds(c, datagram, states, events, i, j - 1);
    }
  }

  /** CONSERVATION turns into GROWTH only on the ack of a packet sent after recovery began. */
  lemma GrowthNeedsNewerAck(c: Config, datagram: nat, states: seq<Bbr>, events: seq<Event>, i: nat, j: nat)
    requires IsRun(c, datagram, states, events) && i < j < |events| && ConservesBetween(states, i, j)
    requires states[j + 1].recovery.state == Growth
    ensures HasAcks(events[j]) && LastAcked(events[j].congestion) > states[i].lastSent
  {
    hide SP.Inv;
    hide Step;
    hide Allowed;
    RoundEndHolds(c, datagram, states, events, i, j);
    AlwaysInv(c, datagram, states, events, j);
    assert Follows(states[j], events[j], states[j + 1]);
    StepOnRecovery(states[j], events[j]);
    StepOnRounds(states[j], events[j]);
  }

  /** A state in recovery has behind it the event that began the recovery: at full bandwidth, with acks and losses. */
  lemma {:induction false} RecoveryHasBegun(c: Config, datagram: nat, states: seq<Bbr>, events: seq<Event>, j: nat)
    returns (k: nat)
    requires IsRun(c, datagram, states, events) && j < |states| && states[j].recovery.state != NotInRecovery
    ensures k < j && states[k].full.reached && HasAckedLosses(events[k])
  {
    hide SP.Inv;
    hide Step;
    hide Allowed;
    assert states[0] == InitialBbr(c, datagram);
    AlwaysInv(c, datagram, states, events, j - 1);
    assert Follows(states[j - 1], events[j - 1], states[j - 1 + 1]);
    StepOnRecovery(states[j - 1], events[j - 1]);
    k := j - 1;
    if states[k].recovery.state != NotInRecovery {
      k := RecoveryHasBegun(c, datagram, states, events, k);
    }
  }

  /** Every ack-carrying event with losses is reflected in the end mark of a later recovery: directly at full bandwidth,
      otherwise through the later event that began the recovery. */
  lemma LossesMoveRecoveryEnd(c: Config, datagram: nat, states: seq<Bbr>, events: seq<Event>, i: nat, j: nat)
    requires IsRun(c, datagram, states, events) && i < j < |states|
    requires HasAckedLosses(events[i]) && states[j].recovery.state != NotInRecovery
    ensures states[j].recovery.endAt >= states[i].lastSent
  {
    hide SP.Inv;
    hide Step;
    hide Allowed;
    var k := RecoveryHasBegun(c, datagram, states, events, j);
    if k < i {
      FullBandwidthIsForever(c, datagram, states, events, k, i);
      k := i;
    }
    AlwaysInv(c, datagram, states, events, k);
    assert Follows(states[k], events[k], states[k + 1]);
    StepOnRounds(states[k], events[k]);
    MarksOnlyRise(c, datagram, states, events, i, k);
    MarksOnlyRise(c, datagram, states, events, k + 1, j);
  }

  /** The last packet number that the first n calls use. */
  ghost function LastSentBefore(events: seq<Event>, n: nat): int
    requires n <= |events|
  {
    if n == 0 then INVALID_PACKET
    else if events[n - 1].Sent? then events[n - 1].number else LastSentBefore(events, n - 1)
  }

  lemma {:induction false} LastSentIsOnCalls(c: Config, datagram: nat, states: seq<Bbr>, events: seq<Event>, n: nat)
    requires IsRun(c, datagram, states, events) && n < |states|
    ensures states[n].lastSent == LastSentBefore(events, n)
  {
    if n > 0 {
      LastSentIsOnCalls(c, datagram, states, events, n - 1);
      assert Follows(states[n - 1], events[n - 1], states[n - 1 + 1]);
      StepOnLastSent(states[n - 1], events[n - 1]);
    }
  }

  lemma StepOnLastSent(b: Bbr, e: Event)
    requires Allowed(b, e)
    ensures Step(b, e).lastSent == if e.Sent? then e.number else b.lastSent
  {
    hide SamplerOutcome;
  }

  /** The latest ack-carrying event with losses before event n. */
  ghost predicate IsLatestLoss(events: seq<Event>, l: nat, n: nat)
    requires n <= |events|
  {
    l < n && HasAckedLosses(events[l]) && forall k :: l < k < n ==> !HasAckedLosses(events[k])
  }

  /** In recovery, the end mark is the last packet sent before the latest ack-carrying event with losses, and full bandwidth
      had been reached by then. */
  lemma {:induction false} EndMarkIsLatestLoss(c: Config, datagram: nat, states: seq<Bbr>, events: seq<Event>, n: nat) returns (l: nat)
    requires IsRun(c, datagram, states, events) && n < |states| && states[n].recovery.state != NotInRecovery
    ensures IsLatestLoss(events, l, n) && states[n].recovery.endAt == LastSentBefore(events, l)
  {
    hide SP.Inv;
    hide Step;
    hide Allowed;
    assert states[0] == InitialBbr(c, datagram);
    l := n - 1;
    var b, e := states[l], events[l];
    AlwaysInv(c, datagram, states, events, l);
    assert Follows(b, e, states[l + 1]);
    RecoveryStepIsExact(b, e);
    LastSentIsOnCalls(c, datagram, states, events, l);
    if !HasAckedLosses(e) {
      l := EndMarkIsLatestLoss(c, datagram, states, events, l);
    }
  }

  /** On every run, recovery ends exactly with the first loss-free event that acks a packet sent after the latest
      ack-carrying event with losses. */
  lemma RecoveryEndsExactly(c: Config, datagram: nat, states: seq<Bbr>, events: seq<Event>, n: nat) returns (l: nat)
    requires IsRun(c, datagram, states, events) && n < |events| && states[n].recovery.state != NotInRecovery
    ensures IsLatestLoss(events, l, n)
    ensures states[n + 1].recovery.state == NotInRecovery <==>
              HasAcks(events[n]) && !HasAckedLosses(events[n]) && LastAcked(events[n].congestion) > LastSentBefore(events, l)
  {
    hide SP.Inv;
    hide Step;
    hide Allowed;
    l := EndMarkIsLatestLoss(c, datagram, states, events, n);
    AlwaysInv(c, datagram, states, events, n);
    assert Follows(states[n], events[n], states[n + 1]);
    RecoveryStepIsExact(states[n], events[n]);
  }

  /** And in CONSERVATION since event i, an event turns it into GROWTH exactly if it acks a packet sent after event i and
      does not end recovery; recovery begins exactly with an ack-carrying event with losses at full bandwidth. */
  lemma GrowthBeginsExactly(c: Config, datagram: nat, states: seq<Bbr>, events: seq<Event>, i: nat, j: nat)
    requires IsRun(c, datagram, states, events) && i < j < |events| && ConservesBetween(states, i, j)
    ensures states[j + 1].recovery.state == Growth <==>
              && HasAcks(events[j]) && LastAcked(events[j].congestion) > LastSentBefore(events, i)
              && states[j + 1].recovery.state != NotInRecovery
  {
    hide SP.Inv;
    hide Step;
    hide Allowed;
    RoundEndHolds(c, datagram, states, events, i, j);
    LastSentIsOnCalls(c, datagram, states, events, i);
    AlwaysInv(c, datagram, states, events, j);
    assert Follows(states[j], events[j], states[j + 1]);
    RecoveryStepIsExact(states[j], events[j]);
    if HasAcks(events[j]) {
      AckIsOfASentPacket(states[j], events[j]);
    }
  }

  /** Acked packet numbers are not negative. */
  lemma AckIsOfASentPacket(b: Bbr, e: Event)
    requires Allowed(b, e) && HasAcks(e)
    ensures LastAcked(e.congestion) >= 0
  {
  }

  lemma RecoveryBeginsExactly(c: Config, datagram: nat, states: seq<Bbr>, events: seq<Event>, n: nat)
    requires IsRun(c, datagram, states, events) && n < |events| && states[n].recovery.state == NotInRecovery
    ensures states[n + 1].recovery.state != NotInRecovery <==> HasAckedLosses(events[n]) && states[n].full.reached
    ensures states[n + 1].recovery.state != Growth
  {
    hide SP.Inv;
    hide Step;
    hide Allowed;
    AlwaysInv(c, datagram, states, events, n);
    assert Follows(states[n], events[n], states[n + 1]);
    RecoveryStepIsExact(states[n], events[n]);
  }

  /** Recovery ends only on a loss-free event that acks a packet sent after every earlier ack-carrying event with
      losses. */
  lemma RecoveryEndsOnNewerAck(c: Config, datagram: nat, states: seq<Bbr>, events: seq<Event>, i: nat, j: nat)
    requires IsRun(c, datagram, states, events) && i < j < |events| && HasAckedLosses(events[i])
    requires states[j].recovery.state != NotInRecovery && states[j + 1].recovery.state == NotInRecovery
    ensures HasAcks(events[j]) && !HasAckedLosses(events[j]) && LastAcked(events[j].congestion) > states[i].lastSent
  {
    hide SP.Inv;
    hide Step;
    hide Allowed;
    AlwaysInv(c, datagram, states, events, j);
    assert Follows(states[j], events[j], states[j + 1]);
    StepOnRecovery(states[j], events[j]);
    LossesMoveRecoveryEnd(c, datagram, states, events, i, j);
  }

  /** After every event that ends in recovery, the recovery window covers what is in flight plus the bytes just acked. */
  lemma RecoveryWindowCoversFlight(c: Config, datagram: nat, states: seq<Bbr>, events: seq<Event>, i: nat)
    requires IsRun(c, datagram, states, events) && i < |events| && events[i].Congested?
    requires states[i + 1].recovery.state != NotInRecovery
    ensures var b, d := states[i], states[i + 1];
            && d.bytesInFlight == InFlightAfter(events[i].congestion)
            && d.recovery.window >= d.bytesInFlight + d.sampler.totalBytesAcked - b.sampler.totalBytesAcked
  {
    hide SP.Inv;
    hide FullAfter;
    hide ModesBeforeStay;
    hide ModesAfter;
    hide NextWindow;
    hide NextPacingRate;
    hide NextRecoveryWindow;
    hide RecoveryStep;
    hide RoundsAfter;
    hide InFlightAfter;
    hide IsRoundStart;
    hide SamplerOutcome;
    hide TargetAt;
    var b, e := states[i], events[i].congestion;
    AlwaysInv(c, datagram, states, events, i);
    assert Follows(b, events[i], states[i + 1]);
    var (sampler, sample) := SamplerOutcome(b, e);
    RecoveryStaysOk(b, e, PathAfter(b, e, sampler, sample), b.full.reached);
  }

  // ---------- Whole runs: PROBE_RTT ----------

  predicate IsLow(b: Bbr, e: Congestion) { InFlightAfter(e) < b.config.minWindow + b.config.packetBuffer }

  /** At event k the bytes in flight, acks and losses deducted, are below the PROBE_RTT threshold. */
  ghost predicate LowAt(states: seq<Bbr>, events: seq<Event>, k: nat)
    requires |states| == |events| + 1 && k < |events|
  {
    events[k].Congested? && IsLow(states[k], events[k].congestion)
  }

  lemma StepInProbeRtt(b: Bbr, e: Congestion)
    requires Inv(b) && Allowed(b, Congested(e))
    ensures var c := OnCongestion(b, e);
            && (c.modes.mode == ProbeRtt ==> c.window == b.window)
            && (b.modes.mode == ProbeRtt ==>
                  c.modes == StayInProbeRtt(b.modes, c.full.reached, IsLow(b, e), e.time, StartsRoundAt(b, Congested(e)), e.draw)
                             .(exitingQuiescence := false))
            && (b.modes.mode != ProbeRtt && c.modes.mode == ProbeRtt ==>
                  if IsLow(b, e) then c.modes.exitProbeRttAt == e.time + PROBE_RTT_TIME && !c.modes.probeRttRoundPassed
                  else c.modes.exitProbeRttAt == NO_TIME)
  {
    hide SP.Inv;
    hide SamplerOutcome;
    hide PathAfter;
    hide FullAfter;
    hide NextPacingRate;
    hide NextRecoveryWindow;
    hide RecoveryStep;
    hide RoundsAfter;
    hide InFlightAfter;
    assert LowInFlight(b, e) == IsLow(b, e);
    RoundStartIsExact(b, Congested(e));
    hide LowInFlight;
    hide IsLow;
    hide StartsRoundAt;
    hide IsRoundStart;
    hide TargetAt;
    hide GetMinRtt;
  }

  /** PROBE_RTT from just after event i up to state j. */
  ghost predicate ProbesBetween(states: seq<Bbr>, i: nat, j: nat)
    requires i < j < |states|
  {
    && states[i].modes.mode != ProbeRtt
    && forall k :: i < k <= j ==> states[k].modes.mode == ProbeRtt
  }

  /** The first event from i on, and before k, with low in-flight bytes. */
  ghost predicate FirstLow(states: seq<Bbr>, events: seq<Event>, i: nat, low: nat, k: nat)
    requires |states| == |events| + 1 && k <= |events|
  {
    i <= low < k && LowAt(states, events, low) && forall m :: i <= m < low ==> !LowAt(states, events, m)
  }

  lemma {:induction false} DuringProbeRtt(c: Config, datagram: nat, states: seq<Bbr>, events: seq<Event>, i: nat, k: nat)
    returns (low: nat, round: nat)
    requires IsRun(c, datagram, states, events) && i < k < |states| && ProbesBetween(states, i, k)
    ensures var m := states[k].modes;
            && states[k].window == states[i].window
            && (m.exitProbeRttAt == NO_TIME ==> forall n :: i <= n < k ==> !LowAt(states, events, n))
            && (m.exitProbeRttAt != NO_TIME ==>
                  && FirstLow(states, events, i, low, k)
                  && m.exitProbeRttAt == events[low].congestion.time + PROBE_RTT_TIME
                  && (if m.probeRttRoundPassed then low < round < k && StartsRoundAt(states[round], events[round])
                      else forall r :: low < r < k ==> !StartsRoundAt(states[r], events[r])))
  {
    hide Inv;
    hide Allowed;
    hide OnCongestion;
    hide IsLow;
    hide StartsRoundAt;
    low, round := 0, 0;
    var b, e := states[k - 1], events[k - 1];
    AlwaysInv(c, datagram, states, events, k - 1);
    assert Follows(b, e, states[k - 1 + 1]);
    if i < k - 1 {
      low, round := DuringProbeRtt(c, datagram, states, events, i, k - 1);
    }
    if e.Congested? {
      StepInProbeRtt(b, e.congestion);
      if LowAt(states, events, k - 1) && (i == k - 1 || b.modes.exitProbeRttAt == NO_TIME) {
        low := k - 1;
      } else if i < k - 1 && !b.modes.probeRttRoundPassed {
        round := k - 1;
      }
    } else {
      QuietStep(b, e);
      OnlyEventsStartRounds(b, e);
    }
  }

  lemma OnlyEventsStartRounds(b: Bbr, e: Event)
    ensures StartsRoundAt(b, e) ==> e.Congested?
  {
  }

  /** A PROBE_RTT stay ends at least 200 ms after the bytes in flight first were low during the stay, and after a later
      round start; up to the event that ends it, the congestion window is what it was before the stay. */
  lemma ProbeRttEndsInTime(c: Config, datagram: nat, states: seq<Bbr>, events: seq<Event>, i: nat, j: nat)
    requires IsRun(c, datagram, states, events) && i < j < |events| && ProbesBetween(states, i, j)
    requires states[j + 1].modes.mode != ProbeRtt
    ensures states[j].window == states[i].window
    ensures events[j].Congested?
    ensures exists low: nat, round: nat ::
              && FirstLow(states, events, i, low, j) && low < round <= j
              && events[j].congestion.time >= events[low].congestion.time + PROBE_RTT_TIME
              && StartsRoundAt(states[round], events[round])
  {
    hide Inv;
    hide Allowed;
    hide OnCongestion;
    hide IsLow;
    hide StartsRoundAt;
    var b, e := states[j], events[j];
    AlwaysInv(c, datagram, states, events, j);
    assert Follows(b, e, states[j + 1]);
    var low, round := DuringProbeRtt(c, datagram, states, events, i, j);
    if e.Congested? {
      StepInProbeRtt(b, e.congestion);
      var r := if b.modes.probeRttRoundPassed then round else j;
      assert FirstLow(states, events, i, low, j) && low < r <= j && StartsRoundAt(states[r], events[r]);
    } else {
      QuietStep(b, e);
    }
  }

  /** From event j on, the stay that began with event i may end: 200 ms after the first low in-flight event, and after a later
      round start. */
  ghost predicate MayEndStay(states: seq<Bbr>, events: seq<Event>, i: nat, j: nat)
    requires |states| == |events| + 1 && j < |events| && events[j].Congested?
  {
    exists low: nat, round: nat ::
      && FirstLow(states, events, i, low, j) && low < round <= j
      && events[j].congestion.time >= events[low].congestion.time + PROBE_RTT_TIME
      && StartsRoundAt(states[round], events[round])
  }

  /** On every run, a PROBE_RTT stay ends exactly with the first event that may end it, in PROBE_BW at full bandwidth and in
      STARTUP otherwise. */
  lemma ProbeRttEndsExactly(c: Config, datagram: nat, states: seq<Bbr>, events: seq<Event>, i: nat, j: nat)
    requires IsRun(c, datagram, states, events) && i < j < |events| && ProbesBetween(states, i, j)
    ensures states[j + 1].modes.mode != ProbeRtt <==> events[j].Congested? && MayEndStay(states, events, i, j)
    ensures states[j + 1].modes.mode
         == if events[j].Congested? && MayEndStay(states, events, i, j)
            then if states[j + 1].full.reached then ProbeBw else Startup
            else ProbeRtt
  {
    hide Inv;
    hide Allowed;
    hide OnCongestion;
    hide IsLow;
    hide StartsRoundAt;
    var b, e := states[j], events[j];
    AlwaysInv(c, datagram, states, events, j);
    assert Follows(b, e, states[j + 1]);
    var low, round := DuringProbeRtt(c, datagram, states, events, i, j);
    if e.Congested? {
      StepInProbeRtt(b, e.congestion);
      var m := b.modes;
      if MayEndStay(states, events, i, j) {
        var l: nat, r: nat :| FirstLow(states, events, i, l, j) && l < r <= j
          && e.congestion.time >= events[l].congestion.time + PROBE_RTT_TIME && StartsRoundAt(states[r], events[r]);
        if m.exitProbeRttAt != NO_TIME {
          assert l == low;
        }
      }
      if m.exitProbeRttAt != NO_TIME && e.congestion.time >= m.exitProbeRttAt
        && (m.probeRttRoundPassed || StartsRoundAt(b, e))
      {
        var r := if m.probeRttRoundPassed then round else j;
        assert FirstLow(states, events, i, low, j) && low < r <= j && StartsRoundAt(states[r], events[r]);
      }
    } else {
      QuietStep(b, e);
    }
  }

  // ---------- Whole runs: STARTUP ends ----------

  /** How often a bandwidth can grow by a quarter, rounded down, without exceeding a limit. */
  ghost function Climbs(x: nat, limit: nat): nat
    requires x >= 8
    decreases if x > limit then 0 else limit - x + 1
  {
    if x > limit then 0 else 1 + Climbs(x * 5 / 4, limit)
  }

  lemma {:induction false} ClimbsFall(x: nat, y: nat, limit: nat)
    requires 8 <= x <= y
    ensures Climbs(y, limit) <= Climbs(x, limit)
    decreases if x > limit then 0 else limit - x + 1
  {
    if y <= limit {
      ClimbsFall(x * 5 / 4, y * 5 / 4, limit);
    }
  }

  /** An upper bound for the rounds that STARTUP still has, if the bandwidth estimate stays within the limit. */
  ghost function RoundsLeft(f: FullBandwidth, limit: nat): int {
    STARTUP_ROUNDS * (if f.bandwidthAtLastRound < 8 then Climbs(8, limit) + 1 else Climbs(f.bandwidthAtLastRound, limit))
      - f.roundsWithoutGain
  }

  /** Every round that is not app-limited uses up at least one, unless it reaches full bandwidth. */
  lemma CheckUsesUpRound(f: FullBandwidth, estimate: Bandwidth, tooMuchLoss: bool, limit: nat)
    requires FullOk(f) && !f.reached && 0 < estimate <= limit && estimate % 8 == 0
    ensures var g := CheckedFullBandwidth(f, estimate, false, tooMuchLoss);
            g.reached || RoundsLeft(g, limit) < RoundsLeft(f, limit)
  {
    var x := f.bandwidthAtLastRound;
    if Gained(f, estimate) {
      if x < 8 {
        ClimbsFall(8, estimate, limit);
      } else {
        assert (x as real * STARTUP_GROWTH_TARGET).Floor == x * 5 / 4;
        ClimbsFall(x * 5 / 4, estimate, limit);
        GrownIsWithin(x, estimate, limit);
      }
    }
  }

  lemma GrownIsWithin(x: nat, estimate: nat, limit: nat)
    requires x >= 8 && x * 5 / 4 <= estimate <= limit
    ensures x <= limit && Climbs(x, limit) == 1 + Climbs(x * 5 / 4, limit)
  {
  }

  /** An event that starts a round before full bandwidth is reached and leaves the latest sample not app-limited. */
  ghost predicate ChecksBandwidth(b: Bbr, e: Event, c: Bbr) {
    StartsRoundAt(b, e) && !b.full.reached && !c.limits.lastSampleIsAppLimited
  }

  ghost function ChecksBefore(states: seq<Bbr>, events: seq<Event>, j: nat): nat
    requires |states| == |events| + 1 && j <= |events|
  {
    if j == 0 then 0
    else ChecksBefore(states, events, j - 1) + if ChecksBandwidth(states[j - 1], events[j - 1], states[j]) then 1 else 0
  }

  /** At every check the bandwidth estimate is nonzero and within the limit. */
  ghost predicate EstimatesWithin(states: seq<Bbr>, events: seq<Event>, limit: nat)
    requires |states| == |events| + 1
  {
    forall k :: 0 <= k < |events| && ChecksBandwidth(states[k], events[k], states[k + 1]) ==>
                  0 < states[k + 1].maxBandwidth.best.sample <= limit
  }

  lemma StepOnFull(b: Bbr, e: Event)
    requires Inv(b) && Allowed(b, e) && !b.full.reached
    ensures var c := Step(b, e);
            c.full == b.full ||
            (ChecksBandwidth(b, e, c) &&
             exists loss :: c.full == CheckedFullBandwidth(b.full, c.maxBandwidth.best.sample, false, loss))
    ensures ChecksBandwidth(b, e, Step(b, e)) ==>
              exists loss :: Step(b, e).full
                          == CheckedFullBandwidth(b.full, Step(b, e).maxBandwidth.best.sample, false, loss)
  {
    hide SP.Inv;
    RoundStartIsExact(b, e);
    if e.Congested? {
      hide SamplerOutcome;
      hide ModesBeforeStay;
      hide ModesAfter;
      hide NextWindow;
      hide NextPacingRate;
      hide NextRecoveryWindow;
      hide RecoveryStep;
      hide RoundsAfter;
      hide InFlightAfter;
      hide IsRoundStart;
      hide TargetAt;
      hide CheckedFullBandwidth;
      hide NextMaxBandwidth;
      hide NextLimits;
      var (sampler, sample) := SamplerOutcome(b, e.congestion);
      var p := PathAfter(b, e.congestion, sampler, sample);
      AppLimitedRoundsDoNotCount(b.full, p.maxBandwidth.best.sample, TooMuchLoss(p.losses, sample.lastState));
    } else {
      QuietStep(b, e);
    }
  }

  lemma AppLimitedRoundsDoNotCount(f: FullBandwidth, estimate: Bandwidth, loss: bool)
    ensures CheckedFullBandwidth(f, estimate, true, loss) == f
  {
  }

  lemma {:induction false} ChecksAreLimited(c: Config, datagram: nat, states: seq<Bbr>, events: seq<Event>, j: nat, limit: nat)
    requires IsRun(c, datagram, states, events) && j < |states| && EstimatesWithin(states, events, limit)
    requires !states[j].full.reached
    ensures ChecksBefore(states, events, j) + RoundsLeft(states[j].full, limit) <= STARTUP_ROUNDS * (Climbs(8, limit) + 1)
    ensures states[j].full.bandwidthAtLastRound <= limit
  {
    hide SP.Inv;
    hide Step;
    hide Allowed;
    if j > 0 {
      var b, e := states[j - 1], events[j - 1];
      AlwaysInv(c, datagram, states, events, j - 1);
      AlwaysInv(c, datagram, states, events, j);
      assert Follows(b, e, states[j - 1 + 1]);
      StepOnModes(b, e);
      ChecksAreLimited(c, datagram, states, events, j - 1, limit);
      StepOnFull(b, e);
      if ChecksBandwidth(b, e, states[j]) {
        assert ChecksBandwidth(states[j - 1], events[j - 1], states[j - 1 + 1]);
        var loss :| states[j].full == CheckedFullBandwidth(b.full, states[j].maxBandwidth.best.sample, false, loss);
        CheckUsesUpRound(b.full, states[j].maxBandwidth.best.sample, loss, limit);
      }
    }
  }

  /** STARTUP terminates: once there have been three rounds for every quarter by which the bandwidth can grow within its
      limit (rounds that are app-limited do not count), full bandwidth has been reached. */
  lemma StartupEnds(c: Config, datagram: nat, states: seq<Bbr>, events: seq<Event>, j: nat, limit: nat)
    requires IsRun(c, datagram, states, events) && j < |states| && EstimatesWithin(states, events, limit)
    requires ChecksBefore(states, events, j) >= STARTUP_ROUNDS * (Climbs(8, limit) + 1)
    ensures states[j].full.reached && states[j].modes.mode != Startup
  {
    hide SP.Inv;
    hide Step;
    hide Allowed;
    AlwaysInv(c, datagram, states, events, j);
    if !states[j].full.reached {
      ChecksAreLimited(c, datagram, states, events, j, limit);
    }
  }
}
