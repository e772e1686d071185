/** How a run of the BBR sender drives its bandwidth sampler, so that what holds of the sampler's own runs holds inside the
    sender: bytes, samples and app-limited phases. */
module BbrSampling {
  import opened Common
  import opened SamplerModel
  import opened BbrModel
  import opened BbrProofs
  import BbrRuns
  import SP = SamplerProofs

  // ---------- The sender runs the sampler ----------

  /** An event leaves the sampler's outcome, possibly marked app-limited for PROBE_RTT, without the obsolete packets. */
  lemma EventOnSampler(b: Bbr, e: Congestion) returns (probing: bool)
    requires HasPackets(e)
    ensures probing == (b.modes.mode == ProbeRtt || OnCongestion(b, e).modes.mode == ProbeRtt)
    ensures var s := SamplerOutcome(b, e).0;
            OnCongestion(b, e).sampler == RemoveObsolete(if probing then OnAppLimited(s) else s, LeastUnacked(e))
  {
    hide SamplerOutcome;
    hide PathAfter;
    hide FullAfter;
    hide ModesAfter;
    hide ModesBeforeStay;
    hide NextWindow;
    hide NextPacingRate;
    hide NextRecoveryWindow;
    hide RecoveryStep;
    hide RoundsAfter;
    hide InFlightAfter;
    hide IsRoundStart;
    hide TargetAt;
    var (sampler, sample) := SamplerOutcome(b, e);
    var p := PathAfter(b, e, sampler, sample);
    var full := FullAfter(b, e, p, sample.lastState).reached;
    var entered := ModesBeforeStay(b, e, p, full);
    probing := entered.mode == ProbeRtt;
    StayIsSeen(b, e, p, full);
  }

  /** An event that is in PROBE_RTT at its end or was at its beginning is in PROBE_RTT when it decides whether to leave. */
  lemma StayIsSeen(b: Bbr, e: Congestion, p: Path, full: bool)
    ensures var entered := ModesBeforeStay(b, e, p, full);
            entered.mode == ProbeRtt <==> b.modes.mode == ProbeRtt || ModesAfter(b, e, entered, full).mode == ProbeRtt
  {
    hide TargetAt;
    hide InFlightAfter;
    hide LowInFlight;
    hide IsRoundStart;
    hide GetMinRtt;
  }

  /** An optional step that is always allowed. */
  lemma MaybeStep(s: Sampler, taken: bool, e: SP.Event)
    requires !e.Sent? && !e.Acknowledged?
    ensures var steps := if taken then [e] else [];
            SP.AllAllowed(s, steps) && SP.Fold(s, steps) == if taken then SP.Step(s, e) else s
  {
    hide SP.Step;
    SP.FreeStep(s, e);
  }

  /** Every congestion event is a sequence of allowed steps of the sampler. */
  lemma CongestionIsSteps(b: Bbr, e: Congestion) returns (steps: seq<SP.Event>)
    requires Inv(b) && Allowed(b, Congested(e))
    ensures SP.AllAllowed(b.sampler, steps) && SP.Fold(b.sampler, steps) == OnCongestion(b, e).sampler
  {
    hide Inv;
    hide SP.Inv;
    hide OnCongestion;
    hide OnCongestionEvent;
    hide SP.AcksInTime;
    hide SP.AllAllowed;
    hide SP.Fold;
    hide FallsIdle;
    assert SP.Inv(b.sampler) by {
      SamplerIsOk(b);
    }
    PreparedIsReady(b, e);
    var s0, s1 := b.sampler, SamplerBefore(b, e);
    MaybeStep(s0, FallsIdle(b, e.priorInFlight), SP.AppLimited);
    var prepare := if FallsIdle(b, e.priorInFlight) then [SP.AppLimited] else [];
    var end := SP.EventIsSteps(s1, e.time, e.acked, e.lost, b.maxBandwidth.best.sample, INF_BANDWIDTH, RoundsAfter(b, e).count);
    var event := SP.LossSteps(e.lost) + if e.acked == [] then [] else SP.AckSteps(e.time, e.acked) + [end];
    SP.AllowedInTwo(s0, prepare, event);
    var s2 := SamplerOutcome(b, e).0;
    var probing := EventOnSampler(b, e);
    MaybeStep(s2, probing, SP.AppLimited);
    var probe := if probing then [SP.AppLimited] else [];
    SP.AllowedInTwo(s0, prepare + event, probe);
    var s3 := if probing then OnAppLimited(s2) else s2;
    SP.FreeStep(s3, SP.Forget(LeastUnacked(e)));
    SP.AllowedInTwo(s0, prepare + event + probe, [SP.Forget(LeastUnacked(e))]);
    steps := prepare + event + probe + [SP.Forget(LeastUnacked(e))];
  }

  lemma SamplerIsOk(b: Bbr)
    requires Inv(b)
    ensures SP.Inv(b.sampler)
  {
  }

  lemma StepIsSteps(b: Bbr, e: Event) returns (steps: seq<SP.Event>)
    requires Inv(b) && Allowed(b, e)
    ensures SP.AllAllowed(b.sampler, steps) && SP.Fold(b.sampler, steps) == Step(b, e).sampler
  {
    match e
    case Sent(time, bytesInFlight, number, bytes, isRetransmittable) =>
      steps := [SP.Sent(time, number, bytes, bytesInFlight, isRetransmittable)];
      hide OnPacketSent;
      hide SP.Inv;
      assert steps[..0] == [];
    case Congested(c) => steps := CongestionIsSteps(b, c);
    case DatagramSize(_) => steps := [];
  }

  /** Inside every run of the sender there is an admissible run of the sampler that leads to the same sampler states, so
      every theorem about the sampler's runs holds inside the sender. */
  lemma {:induction false} SenderRunsSampler(c: Config, datagram: nat, states: seq<Bbr>, events: seq<Event>, i: nat)
    returns (steps: seq<SP.Event>)
    requires IsRun(c, datagram, states, events) && i < |states|
    ensures SP.Admissible(BANDWIDTH_WINDOW, steps) && states[i].sampler == SP.After(BANDWIDTH_WINDOW, steps)
  {
    hide Inv;
    hide Step;
    hide Allowed;
    hide SP.Step;
    hide SP.Allowed;
    if i == 0 {
      steps := [];
    } else {
      var past := SenderRunsSampler(c, datagram, states, events, i - 1);
      AlwaysInv(c, datagram, states, events, i - 1);
      assert Follows(states[i - 1], events[i - 1], states[i - 1 + 1]);
      var next := StepIsSteps(states[i - 1], events[i - 1]);
      SP.AllowedInTwo(InitialSampler(BANDWIDTH_WINDOW), past, next);
      steps := past + next;
    }
  }

  // ---------- Samples ----------

  /** The sender neither neuters packets nor switches overestimate avoidance on. */
  lemma {:induction false} SamplerIsPlain(c: Config, datagram: nat, states: seq<Bbr>, events: seq<Event>, i: nat)
    requires IsRun(c, datagram, states, events) && i < |states|
    ensures !states[i].sampler.overestimateAvoidance && states[i].sampler.totalBytesNeutered == 0
  {
    hide Inv;
    hide Step;
    hide Allowed;
    if i > 0 {
      SamplerIsPlain(c, datagram, states, events, i - 1);
      AlwaysInv(c, datagram, states, events, i - 1);
      assert Follows(states[i - 1], events[i - 1], states[i - 1 + 1]);
      StepKeepsPlain(states[i - 1], events[i - 1]);
    }
  }

  lemma StepKeepsPlain(b: Bbr, e: Event)
    requires Inv(b) && Allowed(b, e)
    ensures var s, t := b.sampler, Step(b, e).sampler;
            t.overestimateAvoidance == s.overestimateAvoidance && t.totalBytesNeutered == s.totalBytesNeutered
  {
    hide SP.Inv;
    if e.Congested? {
      hide OnCongestion;
      hide OnCongestionEvent;
      hide FallsIdle;
      hide RoundsAfter;
      var c := e.congestion;
      var _ := EventOnSampler(b, c);
      PreparedIsReady(b, c);
      SP.EventKeepsInv(SamplerBefore(b, c), c.time, c.acked, c.lost, b.maxBandwidth.best.sample, INF_BANDWIDTH,
                       RoundsAfter(b, c).count);
    }
  }

  /** The sampler at the moment when the k-th acked packet of an event has its turn: after `maybeApplimited`, the losses
      and the earlier acks. */
  ghost function SamplerAtAck(b: Bbr, e: Congestion, k: nat): Sampler
    requires k <= |e.acked|
  {
    AckAll(LoseAll(SamplerBefore(b, e), e.lost).sampler, e.time, e.acked[..k]).sampler
  }

  lemma SamplerAtAckIsOk(b: Bbr, e: Congestion, k: nat)
    requires SP.Inv(b.sampler) && SP.AcksInTime(b.sampler, e.time, e.acked) && k < |e.acked|
    ensures var s := SamplerAtAck(b, e, k);
            && SP.Inv(s) && SP.AckInTime(s, e.time, e.acked[k].number)
            && s.overestimateAvoidance == b.sampler.overestimateAvoidance && s.packets == b.sampler.packets
  {
    hide SP.Inv;
    hide AckAll;
    hide LoseAll;
    hide FallsIdle;
    PreparedIsReady(b, e);
    var s := SamplerBefore(b, e);
    var l := LoseAll(s, e.lost).sampler;
    SP.LossesOnlyAdd(s, e.lost);
    SP.LossesKeepInv(s, l.totalBytesLost);
    SP.LossesKeepTime(s, l.totalBytesLost, e.time, e.acked);
    assert forall i :: 0 <= i < |e.acked| ==> SP.AckInTime(l, e.time, e.acked[i].number);
    SP.AcksKeepInv(l, e.time, e.acked[..k]);
  }

  /** The sample that an ack yields is well defined: both numerators are nonnegative, the ack slope counts at least the
      packet itself and spans at least its round trip, no denominator is negative, and whenever a rate is computed its
      denominator is positive. If the ack ends an app-limited phase, the packet is itself marked app-limited. */
  ghost predicate IsSound(s: Sampler, time: Time, number: int)
    requires number in s.packets
  {
    var p, credited := s.packets[number], Credited(s, time, number);
    var (t, sample) := OnPacketAcknowledged(s, time, number);
    && p.state.totalBytesSent - p.sentAtLastAcked >= 0 && p.sentTime - p.lastAckedSentTime >= 0
    && credited.totalBytesAcked - A0(credited, p).bytes >= p.size
    && time - A0(credited, p).time >= time - p.sentTime >= 0
    && (sample.sendRate != INF_BANDWIDTH ==> p.sentTime - p.lastAckedSentTime > 0)
    && (sample.state.isValid ==> time - A0(credited, p).time > 0)
    && (s.isAppLimited && !t.isAppLimited ==> p.state.isAppLimited)
  }

  lemma AckIsSound(s: Sampler, time: Time, number: int)
    requires SP.Inv(s) && number in s.packets && SP.AckInTime(s, time, number) && !s.overestimateAvoidance
    ensures IsSound(s, time, number)
  {
    hide BandwidthFromDelta;
    SP.SlopesAreDefined(s, time, number);
    assert SP.PacketOk(s, number);
  }

  /** On every run of the sender, the sample of every acked packet that is tracked, taken when its turn comes, is well
      defined. */
  lemma SamplesAreSound(c: Config, datagram: nat, states: seq<Bbr>, events: seq<Event>, i: nat, k: nat)
    requires IsRun(c, datagram, states, events) && i < |events| && events[i].Congested?
    requires k < |events[i].congestion.acked|
    ensures var e := events[i].congestion;
            var s, number := SamplerAtAck(states[i], e, k), e.acked[k].number;
            s.packets == states[i].sampler.packets && (number in s.packets ==> IsSound(s, e.time, number))
  {
    hide Step;
    hide SamplerAtAck;
    hide IsSound;
    AlwaysInv(c, datagram, states, events, i);
    assert Follows(states[i], events[i], states[i + 1]);
    SamplerIsPlain(c, datagram, states, events, i);
    var e := events[i].congestion;
    SamplerAtAckIsOk(states[i], e, k);
    if e.acked[k].number in states[i].sampler.packets {
      AckIsSound(SamplerAtAck(states[i], e, k), e.time, e.acked[k].number);
    }
  }

  // ---------- Tracked packets ----------

  /** A call that makes the sampler track a packet. */
  predicate Tracks(e: Event, number: int) { e.Sent? && e.isRetransmittable && e.number == number }

  /** A call that makes the sampler forget a packet: an event whose last acked packet is more than two above it, or a
      loss-only event whose last lost packet is not below it. */
  predicate Forgets(e: Event, number: int) {
    e.Congested? && HasPackets(e.congestion) &&
    var acked, lost := e.congestion.acked, e.congestion.lost;
    if acked != [] then acked[|acked| - 1].number > number + 2 else lost[|lost| - 1].number >= number
  }

  /** Among the first n calls, one tracks the packet and no later one forgets it. */
  ghost predicate IsTracked(events: seq<Event>, n: nat, number: int)
    requires n <= |events|
  {
    exists k :: 0 <= k < n && IsKept(events, k, n, number)
  }

  ghost predicate IsKept(events: seq<Event>, k: nat, n: nat, number: int)
    requires k < n <= |events|
  {
    Tracks(events[k], number) && forall m :: k < m < n ==> !Forgets(events[m], number)
  }

  lemma StepOnTracked(b: Bbr, e: Event, number: int)
    requires Inv(b) && Allowed(b, e)
    ensures number in Step(b, e).sampler.packets <==>
              Tracks(e, number) || (number in b.sampler.packets && !Forgets(e, number))
  {
    hide SP.Inv;
    if e.Congested? {
      hide OnCongestion;
      hide OnCongestionEvent;
      hide FallsIdle;
      hide RoundsAfter;
      var c := e.congestion;
      var _ := EventOnSampler(b, c);
      PreparedIsReady(b, c);
      SP.EventKeepsInv(SamplerBefore(b, c), c.time, c.acked, c.lost, b.maxBandwidth.best.sample, INF_BANDWIDTH,
                       RoundsAfter(b, c).count);
    }
  }

  /** On every run the sampler tracks exactly the packets that the calls alone say it does. */
  lemma {:induction false} TrackedExactly(c: Config, datagram: nat, states: seq<Bbr>, events: seq<Event>, n: nat, number: int)
    requires IsRun(c, datagram, states, events) && n < |states|
    ensures number in states[n].sampler.packets <==> IsTracked(events, n, number)
  {
    hide Inv;
    hide Step;
    hide Allowed;
    hide Tracks;
    hide Forgets;
    if n > 0 {
      TrackedExactly(c, datagram, states, events, n - 1, number);
      AlwaysInv(c, datagram, states, events, n - 1);
      assert Follows(states[n - 1], events[n - 1], states[n - 1 + 1]);
      StepOnTracked(states[n - 1], events[n - 1], number);
      if IsTracked(events, n - 1, number) && !Forgets(events[n - 1], number) {
        var k :| 0 <= k < n - 1 && IsKept(events, k, n - 1, number);
        assert IsKept(events, k, n, number);
      } else if Tracks(events[n - 1], number) {
        assert IsKept(events, n - 1, n, number);
      }
      if IsTracked(events, n, number) && !Tracks(events[n - 1], number) {
        var k :| 0 <= k < n && IsKept(events, k, n, number);
        assert IsKept(events, k, n - 1, number);
      }
    }
  }

  /** An ack of a packet sent at call k counts nothing exactly if some event in between made the sampler forget it. */
  lemma LateAcksCountNothing(c: Config, datagram: nat, states: seq<Bbr>, events: seq<Event>, k: nat, n: nat)
    requires IsRun(c, datagram, states, events) && k < n < |states|
    requires events[k].Sent? && events[k].isRetransmittable
    ensures events[k].number !in states[n].sampler.packets <==> exists m :: k < m < n && Forgets(events[m], events[k].number)
  {
    hide Forgets;
    hide Inv;
    hide Step;
    var number := events[k].number;
    TrackedExactly(c, datagram, states, events, n, number);
    if IsTracked(events, n, number) {
      var j :| 0 <= j < n && IsKept(events, j, n, number);
      NumbersAreNew(c, datagram, states, events, j, k);
    } else {
      assert !IsKept(events, k, n, number);
    }
  }

  /** No packet number is used twice. */
  lemma NumbersAreNew(c: Config, datagram: nat, states: seq<Bbr>, events: seq<Event>, i: nat, j: nat)
    requires IsRun(c, datagram, states, events) && i < |events| && j < |events| && events[i].Sent? && events[j].Sent?
    ensures i == j || events[i].number != events[j].number
  {
    if i > j {
      NumbersAreNew(c, datagram, states, events, j, i);
    } else if i < j {
      assert Follows(states[i], events[i], states[i + 1]) && Follows(states[j], events[j], states[j + 1]);
      BbrRuns.MarksOnlyRise(c, datagram, states, events, i + 1, j);
    }
  }

  // ---------- Byte accounting ----------

  /** The congestion-controlled packets that the first n calls report as sent. */
  ghost function SentBefore(events: seq<Event>, n: nat): seq<PacketInfo>
    requires n <= |events|
  {
    if n == 0 then []
    else
      var e, log := events[n - 1], SentBefore(events, n - 1);
      if e.Sent? && e.isRetransmittable then log + [PacketInfo(e.number, e.bytes)] else log
  }

  /** The packets that the first n calls report as acked or lost. */
  ghost function ReportedBefore(events: seq<Event>, n: nat): set<int>
    requires n <= |events|
  {
    if n == 0 then {}
    else
      var e, done := events[n - 1], ReportedBefore(events, n - 1);
      if e.Congested? then done + SP.Numbers(e.congestion.lost) + SP.Numbers(e.congestion.acked) else done
  }

  /** Those of them whose bytes are counted: all that are lost, and the acked ones that are still tracked. */
  ghost function CountedBefore(events: seq<Event>, n: nat): set<int>
    requires n <= |events|
  {
    if n == 0 then {}
    else
      var e, done := events[n - 1], CountedBefore(events, n - 1);
      if e.Congested?
      then done + SP.Numbers(e.congestion.lost) + TrackedAmong(events, n - 1, SP.Numbers(e.congestion.acked))
      else done
  }

  ghost function TrackedAmong(events: seq<Event>, n: nat, numbers: set<int>): set<int>
    requires n <= |events|
  {
    set number | number in numbers && IsTracked(events, n, number)
  }

  lemma TrackedAmongExactly(c: Config, datagram: nat, states: seq<Bbr>, events: seq<Event>, n: nat, numbers: set<int>)
    requires IsRun(c, datagram, states, events) && n < |states|
    ensures TrackedAmong(events, n, numbers) == numbers * states[n].sampler.packets.Keys
  {
    hide IsTracked;
    hide Follows;
    forall number | number in numbers
      ensures number in TrackedAmong(events, n, numbers) <==> number in states[n].sampler.packets
    {
      TrackedExactly(c, datagram, states, events, n, number);
    }
  }

  /** The packets of event k were not reported before, none is reported twice, and a lost one has the size it was sent
      with. */
  ghost predicate ReportsNew(events: seq<Event>, k: nat)
    requires k < |events| && events[k].Congested?
  {
    var e, done := events[k].congestion, ReportedBefore(events, k);
    && SP.Distinct(e.lost) && SP.Distinct(e.acked) && SP.Numbers(e.lost) !! SP.Numbers(e.acked)
    && SP.Numbers(e.lost) !! done && SP.Numbers(e.acked) !! done
    && forall p :: p in e.lost ==> p in SentBefore(events, k)
  }

  ghost predicate ReportedOnce(events: seq<Event>) {
    forall k :: 0 <= k < |events| && events[k].Congested? ==> ReportsNew(events, k)
  }

  lemma {:induction false} CountedWasReported(events: seq<Event>, n: nat)
    requires n <= |events|
    ensures CountedBefore(events, n) <= ReportedBefore(events, n)
  {
    hide SP.Numbers;
    if n > 0 {
      CountedWasReported(events, n - 1);
    }
  }

  /** The sampler's totals fit the packets sent and counted so far. */
  ghost predicate Accounted(s: Sampler, log: seq<PacketInfo>, counted: set<int>) {
    SP.Balanced(s, log, counted) && SP.Logged(s, log, counted)
  }

  lemma EventIsAccounted(b: Bbr, e: Congestion, log: seq<PacketInfo>, counted: set<int>)
    requires HasPackets(e) && Accounted(b.sampler, log, counted)
    requires SP.Distinct(e.lost) && SP.Distinct(e.acked) && SP.Numbers(e.lost) !! SP.Numbers(e.acked)
    requires SP.Numbers(e.lost) !! counted && SP.Numbers(e.acked) !! counted && forall p :: p in e.lost ==> p in log
    ensures Accounted(OnCongestion(b, e).sampler, log,
                      counted + SP.Numbers(e.lost) + (SP.Numbers(e.acked) * b.sampler.packets.Keys))
  {
    hide SP.Balanced;
    hide SP.Logged;
    hide SP.Numbers;
    hide SP.Distinct;
    hide OnCongestion;
    hide OnCongestionEvent;
    hide FallsIdle;
    hide RoundsAfter;
    var probing := EventOnSampler(b, e);
    var s0, s2 := SamplerBefore(b, e), SamplerOutcome(b, e).0;
    SP.QuietIsBalanced(b.sampler, SP.AppLimited, log, counted);
    SP.EventIsBalanced(s0, e.time, e.acked, e.lost, b.maxBandwidth.best.sample, INF_BANDWIDTH, RoundsAfter(b, e).count,
                       log, counted);
    var now := counted + SP.Numbers(e.lost) + (SP.Numbers(e.acked) * b.sampler.packets.Keys);
    SP.QuietIsBalanced(s2, SP.AppLimited, log, now);
    SP.QuietIsBalanced(if probing then OnAppLimited(s2) else s2, SP.Forget(LeastUnacked(e)), log, now);
  }

  lemma {:induction false} AlwaysAccounted(c: Config, datagram: nat, states: seq<Bbr>, events: seq<Event>, n: nat)
    requires IsRun(c, datagram, states, events) && ReportedOnce(events) && n < |states|
    ensures Accounted(states[n].sampler, SentBefore(events, n), CountedBefore(events, n))
  {
    hide Inv;
    hide Accounted;
    hide OnCongestion;
    hide SP.Numbers;
    hide SP.Distinct;
    hide TrackedAmong;
    if n == 0 {
      StartIsAccounted();
    } else {
      var b, e := states[n - 1], events[n - 1];
      AlwaysAccounted(c, datagram, states, events, n - 1);
      AlwaysInv(c, datagram, states, events, n - 1);
      assert Follows(b, e, states[n - 1 + 1]);
      var log, counted := SentBefore(events, n - 1), CountedBefore(events, n - 1);
      if e.Sent? {
        SentIsAccounted(b, e, log, counted);
      } else if e.Congested? {
        CountedWasReported(events, n - 1);
        TrackedAmongExactly(c, datagram, states, events, n - 1, SP.Numbers(e.congestion.acked));
        assert ReportsNew(events, n - 1);
        EventIsAccounted(b, e.congestion, log, counted);
      }
    }
  }

  lemma StartIsAccounted()
    ensures Accounted(InitialSampler(BANDWIDTH_WINDOW), [], {})
  {
    SP.NothingIsBalanced(BANDWIDTH_WINDOW);
  }

  lemma SentIsAccounted(b: Bbr, e: Event, log: seq<PacketInfo>, counted: set<int>)
    requires Inv(b) && e.Sent? && Allowed(b, e) && Accounted(b.sampler, log, counted)
    ensures Accounted(Step(b, e).sampler, if e.isRetransmittable then log + [PacketInfo(e.number, e.bytes)] else log, counted)
  {
    hide SP.Inv;
    hide SP.Balanced;
    hide SP.Logged;
    hide OnPacketSent;
    SP.SentIsBalanced(b.sampler, SP.Sent(e.time, e.number, e.bytes, e.bytesInFlight, e.isRetransmittable), log, counted);
  }

  /** Exact byte accounting on every run of the sender that reports each packet at most once: all bytes sent are acked or
      lost, or belong to packets whose bytes were not counted yet. */
  lemma BytesAreConserved(c: Config, datagram: nat, states: seq<Bbr>, events: seq<Event>, n: nat)
    requires IsRun(c, datagram, states, events) && ReportedOnce(events) && n < |states|
    ensures var s, log, counted := states[n].sampler, SentBefore(events, n), CountedBefore(events, n);
            && counted <= ReportedBefore(events, n)
            && s.totalBytesAcked + s.totalBytesLost == SP.Sum(log, counted, true)
            && s.totalBytesSent == s.totalBytesAcked + s.totalBytesLost + SP.Sum(log, counted, false)
  {
    hide SP.Sum;
    AlwaysAccounted(c, datagram, states, events, n);
    SamplerIsPlain(c, datagram, states, events, n);
    CountedWasReported(events, n);
  }
}
