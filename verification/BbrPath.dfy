/** What the BBR sender knows about the path over whole runs: the minimum RTT and the bandwidth estimate. */
module BbrPath {
  import opened Common
  import opened WindowedFilters
  import opened SamplerModel
  import opened BbrModel
  import opened BbrProofs
  import SP = SamplerProofs

  // ---------- The minimum RTT ----------

  /** The RTT that an event's samples give, or INF_RTT. */
  ghost function RttAt(b: Bbr, e: Event): int
    requires e.Congested?
  {
    SamplerOutcome(b, e.congestion).1.rtt
  }

  ghost predicate HasRtt(b: Bbr, e: Event) { e.Congested? && RttAt(b, e) != INF_RTT }

  ghost predicate EndsProbeRtt(b: Bbr, c: Bbr) { b.modes.mode == ProbeRtt && c.modes.mode != ProbeRtt }

  /** An event takes its RTT in; one that ends a PROBE_RTT stay also renews the timestamp of a minimum that it keeps. */
  lemma StepOnMinRtt(b: Bbr, e: Event)
    requires Inv(b) && Allowed(b, e)
    ensures var c := Step(b, e);
            if e.Congested? then
              var r := NextMinRtt(b.minRtt, e.congestion.time, RttAt(b, e));
              RttAt(b, e) > 0 && c.minRtt == if EndsProbeRtt(b, c) then r.(timestamp := e.congestion.time) else r
            else c.minRtt == b.minRtt && !EndsProbeRtt(b, c)
  {
    hide SP.Inv;
    if e.Congested? {
      hide FullAfter;
      hide NextPacingRate;
      hide NextWindow;
      hide NextRecoveryWindow;
      hide RecoveryStep;
      hide RoundsAfter;
      hide InFlightAfter;
      hide LowInFlight;
      hide IsRoundStart;
      hide TargetAt;
      hide GetMinRtt;
      hide NextMaxBandwidth;
      hide NextMinRtt;
      hide NextLimits;
      hide NextLosses;
      hide SamplerOutcome;
      hide ModesBeforeStay;
      hide ModesAfter;
      hide LeavesProbeRtt;
      SamplerDelivers(b, e.congestion);
      var (sampler, sample) := SamplerOutcome(b, e.congestion);
      var p := PathAfter(b, e.congestion, sampler, sample);
      LeavingIsSeen(b, e.congestion, p, FullAfter(b, e.congestion, p, sample.lastState).reached);
    }
  }

  /** An event leaves PROBE_RTT if it finds the sender in it and ends outside. */
  lemma LeavingIsSeen(b: Bbr, e: Congestion, p: Path, full: bool)
    ensures var entered := ModesBeforeStay(b, e, p, full);
            LeavesProbeRtt(entered, e.time, IsRoundStart(b, e)) <==>
              b.modes.mode == ProbeRtt && ModesAfter(b, e, entered, full).mode != ProbeRtt
  {
    hide TargetAt;
    hide InFlightAfter;
    hide LowInFlight;
    hide IsRoundStart;
    hide GetMinRtt;
  }

  /** The clock of the latest ack only moves forward, and an event with an RTT sets it. */
  lemma StepOnClock(b: Bbr, e: Event)
    requires Inv(b) && Allowed(b, e)
    ensures Step(b, e).sampler.lastAckedAckTime >= b.sampler.lastAckedAckTime
    ensures HasRtt(b, e) ==> Step(b, e).sampler.lastAckedAckTime == e.congestion.time
    ensures e.Congested? ==> e.congestion.time >= b.sampler.lastAckedAckTime
  {
    hide SP.Inv;
    if e.Congested? {
      hide PathAfter;
      hide FullAfter;
      hide ModesBeforeStay;
      hide ModesAfter;
      hide NextPacingRate;
      hide NextWindow;
      hide NextRecoveryWindow;
      hide RecoveryStep;
      hide RoundsAfter;
      hide InFlightAfter;
      hide IsRoundStart;
      hide TargetAt;
      hide FallsIdle;
      hide OnCongestionEvent;
      PreparedIsReady(b, e.congestion);
      SP.EventMovesClock(SamplerBefore(b, e.congestion), e.congestion.time, e.congestion.acked, e.congestion.lost,
                         b.maxBandwidth.best.sample, INF_BANDWIDTH, RoundsAfter(b, e.congestion).count);
    }
  }

  /** Every RTT was taken no later than the latest ack. */
  lemma {:induction false} RttsAreInThePast(c: Config, datagram: nat, states: seq<Bbr>, events: seq<Event>, j: nat)
    requires IsRun(c, datagram, states, events) && j < |states|
    ensures forall k :: 0 <= k < j && HasRtt(states[k], events[k]) ==>
                          events[k].congestion.time <= states[j].sampler.lastAckedAckTime
  {
    hide Inv;
    hide Step;
    hide Allowed;
    hide HasRtt;
    if j > 0 {
      RttsAreInThePast(c, datagram, states, events, j - 1);
      AlwaysInv(c, datagram, states, events, j - 1);
      assert Follows(states[j - 1], events[j - 1], states[j - 1 + 1]);
      StepOnClock(states[j - 1], events[j - 1]);
    }
  }

  /** There is no estimate only as long as there was no RTT. */
  lemma {:induction false} NoEstimateNoRtt(c: Config, datagram: nat, states: seq<Bbr>, events: seq<Event>, j: nat)
    requires IsRun(c, datagram, states, events) && j < |states| && states[j].minRtt.value == 0
    ensures forall k :: 0 <= k < j ==> !HasRtt(states[k], events[k])
  {
    hide Inv;
    hide Step;
    hide Allowed;
    if j > 0 {
      AlwaysInv(c, datagram, states, events, j - 1);
      assert Follows(states[j - 1], events[j - 1], states[j - 1 + 1]);
      StepOnMinRtt(states[j - 1], events[j - 1]);
      NoEstimateNoRtt(c, datagram, states, events, j - 1);
    }
  }

  /** The estimate in state j was taken at event `taken` and is the minimum of all RTTs since event `start`. Its timestamp
      is the time of event `mark`, which is `taken` or else the latest end of a PROBE_RTT stay after it, and no RTT came
      more than ten seconds after that. */
  ghost predicate IsRecentMinimum(states: seq<Bbr>, events: seq<Event>, j: nat, start: nat, taken: nat, mark: nat)
    requires |states| == |events| + 1 && j < |states|
  {
    var r := states[j].minRtt;
    && start <= taken <= mark < j
    && HasRtt(states[taken], events[taken]) && r.value == RttAt(states[taken], events[taken])
    && (forall k :: start <= k < j && HasRtt(states[k], events[k]) ==> r.value <= RttAt(states[k], events[k]))
    && events[mark].Congested? && r.timestamp == events[mark].congestion.time
    && (mark == taken || EndsProbeRtt(states[mark], states[mark + 1]))
    && (forall k :: mark < k < j ==> !EndsProbeRtt(states[k], states[k + 1]))
    && (forall k :: 0 <= k < j && HasRtt(states[k], events[k]) ==>
                      events[k].congestion.time <= r.timestamp + MIN_RTT_EXPIRY)
  }

  /** At event k the estimate had expired. */
  ghost predicate ExpiresAt(states: seq<Bbr>, events: seq<Event>, k: nat)
    requires |states| == |events| + 1 && k < |events|
  {
    HasRtt(states[k], events[k]) && Expires(states[k].minRtt, events[k].congestion.time, RttAt(states[k], events[k]))
  }

  /** On every run the minimum RTT is the exact minimum of the latest RTTs, reaching back to the first one or to the one
      that found the estimate expired; no RTT comes more than ten seconds after it was taken or after the latest end of a
      PROBE_RTT stay, which prolongs its life. */
  lemma {:induction false} MinRttIsRecentMinimum(c: Config, datagram: nat, states: seq<Bbr>, events: seq<Event>, j: nat)
    returns (start: nat, taken: nat, mark: nat)
    requires IsRun(c, datagram, states, events) && j < |states| && states[j].minRtt.value != 0
    ensures IsRecentMinimum(states, events, j, start, taken, mark)
    ensures start == 0 || ExpiresAt(states, events, start)
  {
    hide Inv;
    hide Step;
    hide Allowed;
    hide SamplerOutcome;
    hide RttAt;
    hide InitialBbr;
    assert j > 0 by {
      StartsWithoutEstimate(c, datagram);
    }
    var n := j - 1;
    var b, e := states[n], events[n];
    AlwaysInv(c, datagram, states, events, n);
    assert Follows(b, e, states[n + 1]);
    StepOnMinRtt(b, e);
    StepOnClock(b, e);
    RttsAreInThePast(c, datagram, states, events, n);
    if b.minRtt.value == 0 {
      NoEstimateNoRtt(c, datagram, states, events, n);
      return 0, n, n;
    }
    start, taken, mark := MinRttIsRecentMinimum(c, datagram, states, events, n);
    if HasRtt(b, e) && Expires(b.minRtt, e.congestion.time, RttAt(b, e)) {
      return n, n, n;
    }
    if HasRtt(b, e) && RttAt(b, e) < b.minRtt.value {
      taken, mark := n, n;
    } else if EndsProbeRtt(b, states[j]) {
      mark := n;
    }
  }

  lemma StartsWithoutEstimate(c: Config, datagram: nat)
    ensures InitialBbr(c, datagram).minRtt.value == 0
  {
  }

  // ---------- The bandwidth estimate ----------

  /** An event feeds its best bandwidth sample to the filter if it acks tracked bytes, unless the sample is app-limited
      and below the estimate. */
  ghost predicate Feeds(b: Bbr, e: Event) {
    e.Congested? &&
    var (sampler, sample) := SamplerOutcome(b, e.congestion);
    && sampler.totalBytesAcked != b.sampler.totalBytesAcked
    && (!sample.isAppLimited || sample.maxBandwidth > b.maxBandwidth.best.sample)
  }

  /** The samples that the first n events feed, each with its round. */
  ghost function Fed(states: seq<Bbr>, events: seq<Event>, n: nat): seq<Entry<Bandwidth>>
    requires |states| == |events| + 1 && n <= |events|
  {
    if n == 0 then []
    else
      var b, e := states[n - 1], events[n - 1];
      Fed(states, events, n - 1)
      + if Feeds(b, e) then [Entry(SamplerOutcome(b, e.congestion).1.maxBandwidth, states[n].rounds.count)] else []
  }

  lemma StepOnBandwidth(b: Bbr, e: Event)
    requires Allowed(b, e)
    ensures var c := Step(b, e);
            && c.rounds.count >= b.rounds.count
            && c.maxBandwidth == if Feeds(b, e)
                                 then Updated(RATE, BANDWIDTH_WINDOW, b.maxBandwidth,
                                              SamplerOutcome(b, e.congestion).1.maxBandwidth, c.rounds.count)
                                 else b.maxBandwidth
  {
    if e.Congested? {
      hide SamplerOutcome;
      hide FullAfter;
      hide ModesBeforeStay;
      hide ModesAfter;
      hide NextPacingRate;
      hide NextWindow;
      hide NextRecoveryWindow;
      hide RecoveryStep;
      hide InFlightAfter;
      hide IsRoundStart;
      hide TargetAt;
      hide NextLimits;
      hide NextLosses;
      hide NextMinRtt;
      hide Updated;
    }
  }

  /** On every run the filter holds what a replay of all samples fed so far gives, and they come in the order of their
      rounds. */
  lemma {:induction false} FilterIsReplay(c: Config, datagram: nat, states: seq<Bbr>, events: seq<Event>, n: nat)
    requires IsRun(c, datagram, states, events) && n < |states|
    ensures var fed := Fed(states, events, n);
            && states[n].maxBandwidth == Replay(RATE, BANDWIDTH_WINDOW, 0, fed)
            && InOrder(fed) && forall k :: 0 <= k < |fed| ==> fed[k].time <= states[n].rounds.count
  {
    hide Step;
    hide Allowed;
    hide Feeds;
    hide Updated;
    if n > 0 {
      var b, e := states[n - 1], events[n - 1];
      FilterIsReplay(c, datagram, states, events, n - 1);
      assert Follows(b, e, states[n - 1 + 1]);
      StepOnBandwidth(b, e);
      var past, fed := Fed(states, events, n - 1), Fed(states, events, n);
      if Feeds(b, e) {
        assert fed[..|past|] == past;
      } else {
        assert fed == past;
      }
    }
  }

  /** On every run the bandwidth estimate is the exact maximum of the samples fed since some point; it was fed at most ten
      rounds before the last one, and as long as all samples lie within ten rounds it is the maximum of all. */
  lemma EstimateIsRecentMaximum(c: Config, datagram: nat, states: seq<Bbr>, events: seq<Event>, n: nat)
    returns (start: nat, m: nat)
    requires IsRun(c, datagram, states, events) && n < |states| && Fed(states, events, n) != []
    ensures var fed, estimate := Fed(states, events, n), states[n].maxBandwidth.best.sample;
            && start <= m < |fed| && fed[m].sample == estimate
            && (forall k :: start <= k < |fed| ==> fed[k].sample <= estimate)
            && fed[|fed| - 1].time - fed[m].time <= BANDWIDTH_WINDOW
            && (fed[|fed| - 1].time - fed[0].time <= BANDWIDTH_WINDOW ==> start == 0)
  {
    hide Replay;
    FilterIsReplay(c, datagram, states, events, n);
    var fed := Fed(states, events, n);
    var i, j, k;
    start, i, j, k := ReplayIsLocated(RATE, BANDWIDTH_WINDOW, 0, fed);
    m := i;
    assert Nonnegative(RATE, fed);
    forall k | start <= k < |fed| ensures fed[k].sample <= fed[m].sample {
      assert RATE(fed[k].sample) <= RATE(fed[m].sample);
    }
  }

  /** Every sample fed keeps the estimates that are fresh, moves them up when the best has expired, and renews those that
      are stale. */
  lemma FeedingKeepsFresh(c: Config, datagram: nat, states: seq<Bbr>, events: seq<Event>, n: nat)
    requires IsRun(c, datagram, states, events) && n < |events| && Feeds(states[n], events[n])
    requires Fed(states, events, n) != []
    ensures var e, f := states[n].maxBandwidth, states[n + 1].maxBandwidth;
            var latest := Entry(SamplerOutcome(states[n], events[n].congestion).1.maxBandwidth, states[n + 1].rounds.count);
            KeepsFresh(RATE, BANDWIDTH_WINDOW, e, latest, f) && RenewsStale(RATE, BANDWIDTH_WINDOW, e, latest, f)
  {
    hide Replay;
    hide KeepsFresh;
    hide RenewsStale;
    hide Step;
    hide Allowed;
    FilterIsReplay(c, datagram, states, events, n);
    FilterIsReplay(c, datagram, states, events, n + 1);
    var past, fed := Fed(states, events, n), Fed(states, events, n + 1);
    assert Nonnegative(RATE, fed);
    var _, _, _, _ := UpdatesAreFaithful(RATE, BANDWIDTH_WINDOW, 0, past, fed[|past|]);
  }

  /** On every run an estimate is not lowered before more than ten rounds have passed since it was fed. */
  lemma {:induction false} EstimateHoldsForTenRounds(c: Config, datagram: nat, states: seq<Bbr>, events: seq<Event>, i: nat, n: nat)
    requires IsRun(c, datagram, states, events) && i <= n < |states| && Fed(states, events, i) != []
    requires states[n].rounds.count <= states[i].maxBandwidth.best.time + BANDWIDTH_WINDOW
    ensures var before, after := states[i].maxBandwidth.best, states[n].maxBandwidth.best;
            Fed(states, events, n) != [] && after.sample >= before.sample && after.time >= before.time
  {
    hide Step;
    hide Allowed;
    hide Feeds;
    hide Updated;
    if i < n {
      var b, e := states[n - 1], events[n - 1];
      assert Follows(b, e, states[n - 1 + 1]);
      StepOnBandwidth(b, e);
      EstimateHoldsForTenRounds(c, datagram, states, events, i, n - 1);
      if Feeds(b, e) {
        FeedingKeepsFresh(c, datagram, states, events, n - 1);
      }
    }
  }

  /** App-limited samples only raise the estimate: over any stretch of a run in which no other sample is fed it does not
      fall. */
  lemma {:induction false} AppLimitedSamplesOnlyRaise(c: Config, datagram: nat, states: seq<Bbr>, events: seq<Event>, i: nat, j: nat)
    requires IsRun(c, datagram, states, events) && i <= j < |states|
    requires forall k :: i <= k < j && Feeds(states[k], events[k]) ==>
                           SamplerOutcome(states[k], events[k].congestion).1.isAppLimited
    ensures states[j].maxBandwidth.best.sample >= states[i].maxBandwidth.best.sample
  {
    hide Step;
    hide Allowed;
    if i < j {
      AppLimitedSamplesOnlyRaise(c, datagram, states, events, i, j - 1);
      assert Follows(states[j - 1], events[j - 1], states[j - 1 + 1]);
      StepOnBandwidth(states[j - 1], events[j - 1]);
    }
  }
}
