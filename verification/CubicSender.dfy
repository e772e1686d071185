/** The CUBIC/Reno sender of internal/congestion/cubic/cubic_sender.go. */
module CubicSenders {
  import opened Common
  import Cubic

  const MAX_BURST_PACKETS: nat := 3
  const RENO_BETA: real := 0.7
  const MIN_WINDOW_PACKETS: nat := 2
  const MAX_BYTE_COUNT: nat := 0x3FFF_FFFF_FFFF_FFFF

  /** maxPackets is MaxCongestionWindowPackets. */
  datatype Config = Config(reno: bool, datagram: nat, maxPackets: nat, initialWindow: nat, initialMaxWindow: nat)

  function MinWindow(c: Config): nat { c.datagram * MIN_WINDOW_PACKETS }

  function MaxWindow(c: Config): nat { c.datagram * c.maxPackets }

  ghost predicate ValidConfig(c: Config) {
    c.datagram > 0 && MinWindow(c) <= c.initialWindow <= MaxWindow(c)
  }

  datatype Sender = Sender(
    config: Config,
    cubic: Cubic.State,
    largestSent: int,
    largestAcked: int,
    largestSentAtLastCutback: int,
    lastCutbackExitedSlowstart: bool,
    window: int,
    threshold: int,
    ackedPackets: nat)

  /** What every reachable state satisfies: the window lies between two datagrams and one datagram above the maximum. */
  ghost predicate Inv(s: Sender) {
    && ValidConfig(s.config)
    && MinWindow(s.config) <= s.window < MaxWindow(s.config) + s.config.datagram
    && s.cubic.connections == 1 && s.cubic.ackedBytes == 0
    && (s.cubic.epoch != NO_TIME ==> s.cubic.tcpWindow >= MinWindow(s.config))
    && s.largestSentAtLastCutback >= INVALID_PACKET
  }

  function Initial(c: Config): Sender {
    Sender(c, Cubic.Reset(Cubic.State(1, NO_TIME, 0, 0, 0, 0, 0, 0)),
           INVALID_PACKET, INVALID_PACKET, INVALID_PACKET, false, c.initialWindow, MAX_BYTE_COUNT, 0)
  }

  predicate InSlowStart(s: Sender) { s.window < s.threshold }

  predicate InRecovery(s: Sender) {
    s.largestAcked != INVALID_PACKET && s.largestAcked <= s.largestSentAtLastCutback
  }

  predicate IsCwndLimited(s: Sender, bytesInFlight: nat) {
    bytesInFlight >= s.window ||
    (InSlowStart(s) && bytesInFlight > s.window / 2) ||
    s.window - bytesInFlight <= MAX_BURST_PACKETS * s.config.datagram
  }

  function MaybeIncreaseWindow(s: Sender, ackedBytes: nat, priorInFlight: nat, minRtt: nat, now: Time): Sender
    requires Inv(s)
  {
    if !IsCwndLimited(s, priorInFlight) then s.(cubic := s.cubic.(epoch := NO_TIME))
    else if s.window >= MaxWindow(s.config) then s
    else if InSlowStart(s) then s.(window := s.window + s.config.datagram)
    else if s.config.reno then
      if s.ackedPackets + 1 >= s.window / s.config.datagram
      then s.(window := s.window + s.config.datagram, ackedPackets := 0)
      else s.(ackedPackets := s.ackedPackets + 1)
    else
      var (cubic, w) := Cubic.AfterAck(s.cubic, ackedBytes, s.window, minRtt, now);
      s.(cubic := cubic, window := Min(MaxWindow(s.config), w))
  }

  function OnPacketAcked(s: Sender, number: nat, ackedBytes: nat, priorInFlight: nat, minRtt: nat, now: Time): Sender
    requires Inv(s)
  {
    var s := s.(largestAcked := Max(number, s.largestAcked));
    if InRecovery(s) then s else MaybeIncreaseWindow(s, ackedBytes, priorInFlight, minRtt, now)
  }

  /** Does the loss of this packet cut the window back? */
  predicate IsCutback(s: Sender, number: nat) { number > s.largestSentAtLastCutback }

  function OnPacketLost(s: Sender, number: nat): Sender
    requires Inv(s)
  {
    if !IsCutback(s, number) then s
    else
      var s := s.(lastCutbackExitedSlowstart := InSlowStart(s));
      var (cubic, w) := if s.config.reno then (s.cubic, (s.window as real * RENO_BETA).Floor)
                        else Cubic.AfterLoss(s.cubic, s.window);
      var w := Max(w, MinWindow(s.config));
      s.(cubic := cubic, window := w, threshold := w, largestSentAtLastCutback := s.largestSent, ackedPackets := 0)
  }

  function OnTimeout(s: Sender, packetsRetransmitted: bool): Sender {
    var s := s.(largestSentAtLastCutback := INVALID_PACKET);
    if !packetsRetransmitted then s
    else s.(cubic := Cubic.Reset(s.cubic), threshold := s.window / 2, window := MinWindow(s.config))
  }

  function OnMigration(s: Sender): Sender {
    Sender(s.config, Cubic.Reset(s.cubic), INVALID_PACKET, INVALID_PACKET, INVALID_PACKET, false,
           s.config.initialWindow, s.config.initialMaxWindow, 0)
  }

  // ---------- Runs ----------

  /** A call into the sender. HybridSlowStart's answer and the RTT statistics are inputs. */
  datatype Event =
    | Sent(number: nat, isRetransmittable: bool)
    | Acked(number: nat, bytes: nat, priorInFlight: nat, minRtt: nat, time: Time)
    | Lost(number: nat)
    | Timeout(packetsRetransmitted: bool)
    | Migrated
    | SlowStartCheck(shouldExit: bool)

  function Step(s: Sender, e: Event): Sender
    requires Inv(s)
  {
    match e
    case Sent(number, isRetransmittable) => if isRetransmittable then s.(largestSent := number) else s
    case Acked(number, bytes, priorInFlight, minRtt, time) => OnPacketAcked(s, number, bytes, priorInFlight, minRtt, time)
    case Lost(number) => OnPacketLost(s, number)
    case Timeout(packetsRetransmitted) => OnTimeout(s, packetsRetransmitted)
    case Migrated => OnMigration(s)
    case SlowStartCheck(shouldExit) => if InSlowStart(s) && shouldExit then s.(threshold := s.window) else s
  }

  lemma CubicAckKeepsBounds(s: Sender, ackedBytes: nat, minRtt: nat, now: Time)
    requires Inv(s)
    ensures var (cubic, w) := Cubic.AfterAck(s.cubic, ackedBytes, s.window, minRtt, now);
            && w >= MinWindow(s.config) && cubic.tcpWindow >= MinWindow(s.config)
            && cubic.connections == 1 && cubic.ackedBytes == 0
  {
    hide Cubic.Grant;
    hide Cubic.CubeRoot;
    hide Cubic.TcpGrowth;
  }

  lemma StepKeepsInv(s: Sender, e: Event)
    requires Inv(s) && s.largestSent >= INVALID_PACKET
    ensures Inv(Step(s, e)) && Step(s, e).config == s.config && Step(s, e).largestSent >= INVALID_PACKET
  {
    hide Cubic.AfterAck;
    hide MinWindow;
    if e.Acked? {
      var t := s.(largestAcked := Max(e.number, s.largestAcked));
      CubicAckKeepsBounds(t, e.bytes, e.minRtt, e.time);
    } else if e.Lost? {
      CutbackShrinks(s);
    }
  }

  /** A cutback leaves 0.7 of the window, in CUBIC and in Reno. */
  lemma CutbackShrinks(s: Sender)
    requires Inv(s)
    ensures (s.window as real * RENO_BETA).Floor == 7 * s.window / 10
    ensures Cubic.AfterLoss(s.cubic, s.window).1 == 7 * s.window / 10
  {
    Cubic.LossBacksOff(s.cubic, s.window);
    Cubic.OneConnectionKeeps70Percent(Cubic.AfterLoss(s.cubic, s.window).1, s.window);
  }

  /** The state after a whole sequence of calls, every one of which is inside the bounds. */
  function After(c: Config, events: seq<Event>): (s: Sender)
    requires ValidConfig(c)
    ensures Inv(s) && s.config == c && s.largestSent >= INVALID_PACKET
  {
    if events == [] then Initial(c)
    else
      var n := |events| - 1;
      var s := After(c, events[..n]);
      StepKeepsInv(s, events[n]);
      Step(s, events[n])
  }

  lemma AfterOneMore(c: Config, events: seq<Event>, e: Event)
    requires ValidConfig(c)
    ensures After(c, events + [e]) == Step(After(c, events), e)
  {
    assert (events + [e])[..|events|] == events;
  }

  // ---------- One cutback per flight ----------

  /** QUIC numbers packets in sending order. */
  ghost predicate SendsInOrder(c: Config, events: seq<Event>)
    requires ValidConfig(c)
  {
    forall i :: 0 <= i < |events| && events[i].Sent? && events[i].isRetransmittable ==>
                  events[i].number > After(c, events[..i]).largestSent
  }

  ghost predicate CutsBack(c: Config, events: seq<Event>, i: nat)
    requires ValidConfig(c) && i < |events|
  {
    events[i].Lost? && IsCutback(After(c, events[..i]), events[i].number)
  }

  /** Between a cutback and the next timeout or migration, the mark stays at or above what was sent at the cutback. */
  lemma {:induction false} MarkHolds(c: Config, events: seq<Event>, i: nat, j: nat)
    requires ValidConfig(c) && SendsInOrder(c, events) && i < j <= |events| && CutsBack(c, events, i)
    requires forall k :: i < k < j ==> !events[k].Timeout? && !events[k].Migrated?
    ensures var first, s := After(c, events[..i]), After(c, events[..j]);
            first.largestSent <= s.largestSentAtLastCutback && first.largestSent <= s.largestSent
  {
    hide MaybeIncreaseWindow;
    hide Cubic.AfterLoss;
    assert events[..j][..j - 1] == events[..j - 1];
    if i < j - 1 {
      MarkHolds(c, events, i, j - 1);
      if events[j - 1].Acked? {
        AckKeepsNumbers(After(c, events[..j - 1]), events[j - 1]);
      }
    }
  }

  lemma AckKeepsNumbers(s: Sender, e: Event)
    requires Inv(s) && e.Acked?
    ensures Step(s, e).largestSent == s.largestSent
    ensures Step(s, e).largestSentAtLastCutback == s.largestSentAtLastCutback
  {
    hide Cubic.AfterAck;
  }

  /** Absent timeouts and migrations, the packet whose loss causes a cutback was sent after the previous cutback. */
  lemma CutbacksAreFlightsApart(c: Config, events: seq<Event>, i: nat, j: nat)
    requires ValidConfig(c) && SendsInOrder(c, events) && i < j < |events|
    requires CutsBack(c, events, i) && CutsBack(c, events, j)
    requires forall k :: i < k < j ==> !events[k].Timeout? && !events[k].Migrated?
    ensures events[j].number > After(c, events[..i]).largestSent
  {
    MarkHolds(c, events, i, j);
  }

  /** On every run, a loss report either changes nothing or is a cutback, which leaves 0.7 of the window but at least two
      datagrams, makes that the slow-start threshold, and moves the mark to the last packet sent; so a window above two
      datagrams strictly falls. */
  lemma CutbackIsExact(c: Config, events: seq<Event>, number: nat)
    requires ValidConfig(c)
    ensures var s, t := After(c, events), After(c, events + [Lost(number)]);
            if number > s.largestSentAtLastCutback then
              && t.window == Max(7 * s.window / 10, MinWindow(c))
              && t.threshold == t.window && t.largestSentAtLastCutback == s.largestSent && t.ackedPackets == 0
              && t.lastCutbackExitedSlowstart == (s.window < s.threshold)
              && (s.window > MinWindow(c) ==> t.window < s.window)
              && (!c.reno ==> t.cubic.epoch == NO_TIME && 7 * s.window / 10 <= t.cubic.lastMax <= s.window)
            else t == s
  {
    hide Cubic.AfterLoss;
    hide Cubic.IsShare;
    hide MinWindow;
    AfterOneMore(c, events, Lost(number));
    var s := After(c, events);
    hide After;
    CutbackShrinks(s);
    Cubic.LossBacksOff(s.cubic, s.window);
  }

  /** The last retransmittable packet sent since the latest migration. */
  ghost function LastSentBy(events: seq<Event>): int {
    if events == [] then INVALID_PACKET
    else
      var past, e := events[..|events| - 1], events[|events| - 1];
      if e.Sent? && e.isRetransmittable then e.number
      else if e.Migrated? then INVALID_PACKET
      else LastSentBy(past)
  }

  /** On every run that is the packet to which a cutback moves the mark. */
  lemma {:induction false} LastSentIsOnCalls(c: Config, events: seq<Event>)
    requires ValidConfig(c)
    ensures After(c, events).largestSent == LastSentBy(events)
  {
    if events != [] {
      LastSentIsOnCalls(c, events[..|events| - 1]);
      var s, e := After(c, events[..|events| - 1]), events[|events| - 1];
      assert Step(s, e).largestSent == if e.Sent? && e.isRetransmittable then e.number
                                       else if e.Migrated? then INVALID_PACKET else s.largestSent by {
        hide Cubic.AfterAck;
        hide Cubic.AfterLoss;
      }
    }
  }

  // ---------- How fast the window grows ----------

  /** The largest packet acked was sent after the latest cutback. */
  predicate IsOutOfRecovery(s: Sender, e: Event)
    requires e.Acked?
  {
    Max(e.number, s.largestAcked) > s.largestSentAtLastCutback
  }

  /** The window limits the sender: at most three datagrams of it are unused or, in slow start, less than half of it. */
  predicate IsLimited(s: Sender, e: Event)
    requires e.Acked?
  {
    e.priorInFlight + 3 * s.config.datagram >= s.window || (s.window < s.threshold && 2 * e.priorInFlight > s.window)
  }

  /** The ack may grow the window: the sender is out of recovery, limited by its window, and below the maximum. */
  predicate MayGrow(s: Sender, e: Event) {
    e.Acked? && IsOutOfRecovery(s, e) && IsLimited(s, e) && s.window < MaxWindow(s.config)
  }

  lemma MayGrowExactly(s: Sender, e: Event)
    requires Inv(s) && e.Acked?
    ensures var t := s.(largestAcked := Max(e.number, s.largestAcked));
            && InRecovery(t) == !IsOutOfRecovery(s, e) && IsCwndLimited(t, e.priorInFlight) == IsLimited(s, e)
  {
  }

  /** On every run, acks that may not grow the window leave it alone; one that finds the sender out of recovery and not
      limited by its window ends the epoch. */
  lemma OtherAcksKeepWindow(c: Config, events: seq<Event>, ack: Event)
    requires ValidConfig(c) && ack.Acked? && !MayGrow(After(c, events), ack)
    ensures var s, t := After(c, events), After(c, events + [ack]);
            && t.window == s.window && t.threshold == s.threshold && t.largestAcked == Max(ack.number, s.largestAcked)
            && t.cubic == if IsOutOfRecovery(s, ack) && !IsLimited(s, ack) then s.cubic.(epoch := NO_TIME) else s.cubic
  {
    AfterOneMore(c, events, ack);
    MayGrowExactly(After(c, events), ack);
  }

  // ---------- Timeouts and migrations ----------

  /** On every run, a timeout forgets the mark, so that the next loss cuts back; if it retransmits packets, the window falls
      to two datagrams, slow start ends at half the old window, and CUBIC starts afresh. */
  lemma TimeoutIsExact(c: Config, events: seq<Event>, packetsRetransmitted: bool)
    requires ValidConfig(c)
    ensures var s, t := After(c, events), After(c, events + [Timeout(packetsRetransmitted)]);
            && t.largestSentAtLastCutback == INVALID_PACKET && (forall number: nat :: IsCutback(t, number))
            && if packetsRetransmitted
               then t.window == MinWindow(c) && t.threshold == s.window / 2 && t.cubic == Initial(c).cubic
               else t.window == s.window && t.threshold == s.threshold && t.cubic == s.cubic
  {
    AfterOneMore(c, events, Timeout(packetsRetransmitted));
  }

  /** On every run, a migration leaves a new sender, whose slow start ends at the initial maximum window. */
  lemma MigrationIsExact(c: Config, events: seq<Event>)
    requires ValidConfig(c)
    ensures After(c, events + [Migrated]) == Initial(c).(threshold := c.initialMaxWindow)
  {
    AfterOneMore(c, events, Migrated);
  }

  /** On every run, the slow-start check ends slow start at the current window. */
  lemma SlowStartCheckIsExact(c: Config, events: seq<Event>, shouldExit: bool)
    requires ValidConfig(c)
    ensures var s, t := After(c, events), After(c, events + [SlowStartCheck(shouldExit)]);
            t == if shouldExit && s.window < s.threshold then s.(threshold := s.window) else s
  {
    AfterOneMore(c, events, SlowStartCheck(shouldExit));
  }

  /** The i-th of some acks is one that may grow the window in slow start. */
  ghost predicate GrowsInSlowStart(c: Config, events: seq<Event>, acks: seq<Event>, i: nat)
    requires ValidConfig(c) && i < |acks|
  {
    var s := After(c, events + acks[..i]); MayGrow(s, acks[i]) && InSlowStart(s)
  }

  /** In slow start every such ack adds one datagram. */
  lemma {:induction false} SlowStartGrowth(c: Config, events: seq<Event>, acks: seq<Event>)
    requires ValidConfig(c) && forall i :: 0 <= i < |acks| ==> GrowsInSlowStart(c, events, acks, i)
    ensures After(c, events + acks).window == After(c, events).window + |acks| * c.datagram
  {
    hide After;
    if acks == [] {
      assert events + acks == events;
    } else {
      var n := |acks| - 1;
      var past := acks[..n];
      forall i | 0 <= i < n ensures GrowsInSlowStart(c, events, past, i) {
        assert past[..i] == acks[..i] && GrowsInSlowStart(c, events, acks, i);
      }
      SlowStartGrowth(c, events, past);
      assert events + acks == events + past + [acks[n]];
      assert GrowsInSlowStart(c, events, acks, n);
      AfterOneMore(c, events + past, acks[n]);
      MayGrowExactly(After(c, events + past), acks[n]);
    }
  }

  ghost predicate GrowsInReno(c: Config, events: seq<Event>, acks: seq<Event>, i: nat)
    requires ValidConfig(c) && i < |acks|
  {
    var s := After(c, events + acks[..i]); MayGrow(s, acks[i]) && !InSlowStart(s) && c.reno
  }

  /** In Reno's congestion avoidance a window's worth of such acks, counted from the last growth, adds one datagram, and no
      fewer do. */
  lemma {:induction false} RenoGrowth(c: Config, events: seq<Event>, acks: seq<Event>)
    requires ValidConfig(c) && forall i :: 0 <= i < |acks| ==> GrowsInReno(c, events, acks, i)
    requires After(c, events).ackedPackets == 0 && |acks| <= After(c, events).window / c.datagram
    ensures var s, t := After(c, events), After(c, events + acks);
            if |acks| < s.window / c.datagram then t.window == s.window && t.ackedPackets == |acks|
            else t.window == s.window + c.datagram && t.ackedPackets == 0
  {
    hide After;
    var s := After(c, events);
    assert s.window / c.datagram >= 2 by {
      TwoDatagrams(s.window, c.datagram);
    }
    if acks == [] {
      assert events + acks == events;
    } else {
      var n := |acks| - 1;
      var past := acks[..n];
      forall i | 0 <= i < n ensures GrowsInReno(c, events, past, i) {
        assert past[..i] == acks[..i] && GrowsInReno(c, events, acks, i);
      }
      RenoGrowth(c, events, past);
      assert events + acks == events + past + [acks[n]];
      assert GrowsInReno(c, events, acks, n);
      AfterOneMore(c, events + past, acks[n]);
      MayGrowExactly(After(c, events + past), acks[n]);
    }
  }

  lemma TwoDatagrams(window: nat, datagram: nat)
    requires datagram > 0 && window >= 2 * datagram
    ensures window / datagram >= 2
  {
    var q := window / datagram;
    assert window == q * datagram + window % datagram;
    if q < 2 {
      AtMostOne(q, datagram);
      assert false;
    }
  }

  lemma AtMostOne(q: nat, n: nat)
    requires q < 2
    ensures q * n <= n
  {
  }

  /** In CUBIC's congestion avoidance the window follows the curve, but rises by at most half the acked bytes with each ack
      unless the TCP-friendly estimate is above it, and never above the maximum. */
  lemma CubicGrowth(c: Config, events: seq<Event>, ack: Event)
    requires ValidConfig(c) && ReachesCubic(After(c, events), ack)
    ensures var s, t := After(c, events), After(c, events + [ack]);
            var grant := Cubic.Grant(Cubic.EpochOf(s.cubic, ack.bytes, s.window, ack.time), ack.time + ack.minRtt);
            t.window == Min(MaxWindow(c), Max(t.cubic.tcpWindow, Min(grant, s.window + ack.bytes / 2)))
  {
    hide Cubic.AfterAck;
    hide Cubic.Grant;
    AfterOneMore(c, events, ack);
    var s := After(c, events);
    Cubic.AckFollowsGrant(s.cubic, ack.bytes, s.window, ack.minRtt, ack.time);
  }

  // ---------- Acks never shrink the window ----------

  /** The ack gets as far as the CUBIC window function. */
  predicate ReachesCubic(s: Sender, e: Event) { MayGrow(s, e) && !InSlowStart(s) && !s.config.reno }

  /** The moment of the latest ack that reached CUBIC: its time plus the minimum RTT. */
  ghost function Moment(c: Config, events: seq<Event>): nat
    requires ValidConfig(c)
  {
    if events == [] then 0
    else
      var past, e := events[..|events| - 1], events[|events| - 1];
      if ReachesCubic(After(c, past), e) then e.time + e.minRtt else Moment(c, past)
  }

  /** Within an epoch, event time plus minimum RTT does not run backwards. */
  ghost predicate IsForward(s: Sender, e: Event, moment: nat) {
    ReachesCubic(s, e) ==>
      e.time > NO_TIME && (s.cubic.epoch != NO_TIME ==> moment <= e.time + e.minRtt)
  }

  /** The ack comes less than 25.57 s before or after the origin point of its epoch. */
  ghost predicate IsNear(s: Sender, e: Event)
    requires Inv(s)
  {
    ReachesCubic(s, e) ==>
      Cubic.NearOrigin(Cubic.EpochOf(s.cubic, e.bytes, s.window, e.time), e.time + e.minRtt)
  }

  ghost predicate ClockForward(c: Config, events: seq<Event>)
    requires ValidConfig(c)
  {
    forall i :: 0 <= i < |events| ==> IsForward(After(c, events[..i]), events[i], Moment(c, events[..i]))
  }

  ghost predicate AllNear(c: Config, events: seq<Event>)
    requires ValidConfig(c)
  {
    forall i :: 0 <= i < |events| ==> IsNear(After(c, events[..i]), events[i])
  }

  /** While an epoch lasts, the window is granted by the curve or the TCP estimate and the sender is out of slow start. */
  ghost predicate InEpoch(s: Sender, moment: int) {
    && Inv(s)
    && (s.cubic.epoch != NO_TIME ==>
          !s.config.reno && s.window >= s.threshold && Cubic.Granted(s.cubic, s.window, moment))
  }

  lemma CubicAckGrows(s: Sender, e: Event, moment: nat)
    requires InEpoch(s, moment) && s.largestSent >= INVALID_PACKET
    requires ReachesCubic(s, e) && IsForward(s, e, moment) && IsNear(s, e)
    ensures InEpoch(Step(s, e), e.time + e.minRtt) && Step(s, e).window >= s.window
  {
    hide Cubic.AfterAck;
    hide Cubic.Grant;
    hide Cubic.NearOrigin;
    hide Cubic.EpochOf;
    StepKeepsInv(s, e);
    var t := s.(largestAcked := Max(e.number, s.largestAcked));
    Cubic.AckNeverShrinks(s.cubic, e.bytes, s.window, e.minRtt, e.time, moment);
    var (cubic, w) := Cubic.AfterAck(t.cubic, e.bytes, t.window, e.minRtt, e.time);
    assert Cubic.Granted(cubic, Min(MaxWindow(s.config), w), e.time + e.minRtt);
  }

  lemma OtherStepsKeepEpoch(s: Sender, e: Event, moment: nat)
    requires InEpoch(s, moment) && !ReachesCubic(s, e) && s.largestSent >= INVALID_PACKET
    ensures InEpoch(Step(s, e), moment) && (e.Acked? ==> Step(s, e).window >= s.window)
  {
    hide Cubic.Grant;
    hide Cubic.NearOrigin;
    hide Cubic.AfterAck;
    StepKeepsInv(s, e);
  }

  lemma {:induction false} AlwaysInEpoch(c: Config, events: seq<Event>)
    requires ValidConfig(c) && ClockForward(c, events) && AllNear(c, events)
    ensures InEpoch(After(c, events), Moment(c, events))
  {
    hide InEpoch;
    hide Step;
    hide IsForward;
    hide IsNear;
    hide ReachesCubic;
    hide Initial;
    if events == [] {
      StartsOutsideEpoch(c);
    } else {
      var n := |events| - 1;
      var past := events[..n];
      assert forall i :: 0 <= i < n ==> past[i] == events[i] && past[..i] == events[..i];
      AlwaysInEpoch(c, past);
      var s := After(c, past);
      if ReachesCubic(s, events[n]) {
        CubicAckGrows(s, events[n], Moment(c, past));
        assert events[n].Acked? by {
          OnlyAcksReachCubic(s, events[n]);
        }
      } else {
        OtherStepsKeepEpoch(s, events[n], Moment(c, past));
      }
    }
  }

  lemma OnlyAcksReachCubic(s: Sender, e: Event)
    ensures ReachesCubic(s, e) ==> e.Acked?
  {
  }

  lemma StartsOutsideEpoch(c: Config)
    requires ValidConfig(c)
    ensures InEpoch(Initial(c), 0)
  {
  }

  /** On every run whose clock does not run backwards and whose acks come near the origin points of their epochs, no ack
      ever shrinks the congestion window. */
  lemma AcksNeverShrink(c: Config, events: seq<Event>, ack: Event)
    requires ValidConfig(c) && ack.Acked? && ClockForward(c, events + [ack]) && AllNear(c, events + [ack])
    ensures After(c, events + [ack]).window >= After(c, events).window
  {
    hide InEpoch;
    hide Step;
    var all := events + [ack];
    assert forall i :: 0 <= i <= |events| ==> all[..i] == events[..i];
    assert forall i :: 0 <= i < |events| ==> all[i] == events[i];
    assert all[|events|] == ack && all[..|events|] == events;
    AlwaysInEpoch(c, events);
    AfterOneMore(c, events, ack);
    var s := After(c, events);
    if ReachesCubic(s, ack) {
      CubicAckGrows(s, ack, Moment(c, events));
    } else {
      OtherStepsKeepEpoch(s, ack, Moment(c, events));
    }
  }

  /** What a caller can see before an ack: it reaches CUBIC in an epoch whose curve and TCP estimate are both below the
      window. */
  predicate ShrinksOnAck(s: Sender, e: Event)
    requires Inv(s)
  {
    ReachesCubic(s, e) && Cubic.Outgrown(s.cubic, e.bytes, s.window, e.time + e.minRtt)
  }

  /** Whatever the clock does and wherever the curve wraps, on every run an ack shrinks the window exactly under that
      condition. */
  lemma AckShrinksExactlyWhenOutgrown(c: Config, events: seq<Event>, ack: Event)
    requires ValidConfig(c) && ack.Acked? && ack.time > NO_TIME
    ensures After(c, events + [ack]).window < After(c, events).window <==> ShrinksOnAck(After(c, events), ack)
  {
    hide Cubic.AfterAck;
    hide Cubic.Outgrown;
    AfterOneMore(c, events, ack);
    var s := After(c, events);
    Cubic.AckShrinksExactlyWhenOutgrown(s.cubic, ack.bytes, s.window, ack.minRtt, ack.time);
  }

  // ---------- Two runs that shrink the window ----------

  /** One packet acked in the first second of an epoch, and a second one either a microsecond later with a minimum RTT of
      1 ms instead of 1 s, or 24.6 s later with the same minimum RTT. */
  lemma TwoAcks()
    ensures var s := Cubic.Reset(Cubic.State(1, NO_TIME, 0, 0, 0, 0, 0, 0));
            var t := Cubic.State(1, SECOND, 0, 0, 40_084, 40_064, 0, 40_565);
            && Cubic.AfterAck(s, 1252, 40_064, SECOND, SECOND) == (t, 40_565)
            && Cubic.AfterAck(t, 1252, 40_565, MILLISECOND, SECOND + 1000).1 == 40_104
            && Cubic.AfterAck(t, 1252, 40_565, SECOND, 25_600 * MILLISECOND).1 == 40_104
            && !Cubic.NearOrigin(t, 26_600 * MILLISECOND)
  {
    assert Cubic.Beta(1) == 0.7 && Cubic.Alpha(1) == 9.0 / 17.0;
    assert Cubic.Elapsed(SECOND, 2 * SECOND) == 1024 && Cubic.Delta(1024) == 501;
    assert Cubic.Elapsed(SECOND, SECOND + 1000 + MILLISECOND) == 1 && Cubic.Delta(1) == 0;
    assert Cubic.Elapsed(SECOND, 26_600 * MILLISECOND) == 26_214 && Cubic.Delta(26_214) == -8_367_367;
    assert Cubic.TcpGrowth(1, 1252, 40_064) == 20 && Cubic.TcpGrowth(1, 1252, 40_084) == 20;
  }

  const EXAMPLE := Config(false, 1252, 10_000, 40_064, 12_520_000)

  /** Two packets are sent, slow start ends, and the first packet is acked. */
  ghost function FirstAck(): seq<Event> {
    [Sent(0, true), Sent(1, true), SlowStartCheck(true), Acked(0, 1252, 50_000, SECOND, SECOND)]
  }

  lemma AfterFirstAck()
    ensures var s := After(EXAMPLE, FirstAck());
            && s.window == 40_565 && s.cubic == Cubic.State(1, SECOND, 0, 0, 40_084, 40_064, 0, 40_565)
            && s.threshold == 40_064 && s.largestAcked == 0 && s.largestSentAtLastCutback == INVALID_PACKET
            && s.config == EXAMPLE
            && Moment(EXAMPLE, FirstAck()) == 2 * SECOND && ClockForward(EXAMPLE, FirstAck())
  {
    hide Cubic.AfterAck;
    hide After;
    var e := FirstAck();
    TwoAcks();
    AfterNothing(EXAMPLE);
    assert e[..0] == [] && e[..1] == [] + [e[0]] && e[..2] == e[..1] + [e[1]] && e[..3] == e[..2] + [e[2]];
    assert e == e[..3] + [e[3]];
    AfterOneMore(EXAMPLE, [], e[0]);
    AfterOneMore(EXAMPLE, e[..1], e[1]);
    AfterOneMore(EXAMPLE, e[..2], e[2]);
    AfterOneMore(EXAMPLE, e[..3], e[3]);
  }

  /** The minimum RTT drops by more than the time between two acks: the second one takes the window from 40565 back to
      40104 bytes. */
  lemma FallingDelayShrinks()
    ensures var ack := Acked(1, 1252, 50_000, MILLISECOND, SECOND + 1000);
            After(EXAMPLE, FirstAck()).window == 40_565 && After(EXAMPLE, FirstAck() + [ack]).window == 40_104
  {
    hide Cubic.AfterAck;
    hide After;
    hide FirstAck;
    TwoAcks();
    AfterFirstAck();
    AfterOneMore(EXAMPLE, FirstAck(), Acked(1, 1252, 50_000, MILLISECOND, SECOND + 1000));
  }

  /** With a constant minimum RTT and a clock that runs forward, an ack that comes too far past the origin point does the
      same. */
  lemma LongEpochShrinks()
    ensures var run := FirstAck() + [Acked(1, 1252, 50_000, SECOND, 25_600 * MILLISECOND)];
            && ClockForward(EXAMPLE, run)
            && After(EXAMPLE, FirstAck()).window == 40_565 && After(EXAMPLE, run).window == 40_104
  {
    hide Cubic.AfterAck;
    hide After;
    hide FirstAck;
    TwoAcks();
    AfterFirstAck();
    var past, ack := FirstAck(), Acked(1, 1252, 50_000, SECOND, 25_600 * MILLISECOND);
    AfterOneMore(EXAMPLE, past, ack);
    var run := past + [ack];
    assert forall i :: 0 <= i < |past| ==> run[..i] == past[..i] && run[i] == past[i];
    assert run[..|past|] == past;
  }

  lemma AfterNothing(c: Config)
    requires ValidConfig(c)
    ensures After(c, []) == Initial(c)
  {
  }

  // ---------- The object ----------

  class CubicSender {
    const config: Config
    const cubic: Cubic.CubicWindow
    var largestSentPacketNumber: int
    var largestAckedPacketNumber: int
    var largestSentAtLastCutback: int
    var lastCutbackExitedSlowstart: bool
    var congestionWindow: int
    var slowStartThreshold: int
    var numAckedPackets: nat

    ghost function Abs(): Sender
      reads this, cubic
    {
      Sender(config, cubic.Abs(), largestSentPacketNumber, largestAckedPacketNumber, largestSentAtLastCutback,
             lastCutbackExitedSlowstart, congestionWindow, slowStartThreshold, numAckedPackets)
    }

    ghost predicate Valid()
      reads this, cubic
    {
      Inv(Abs()) && largestSentPacketNumber >= INVALID_PACKET
    }

    constructor (config: Config)
      requires ValidConfig(config)
      ensures Valid() && fresh(cubic) && Abs() == Initial(config)
    {
      this.config := config;
      cubic := new Cubic.CubicWindow();
      largestSentPacketNumber, largestAckedPacketNumber := INVALID_PACKET, INVALID_PACKET;
      largestSentAtLastCutback, lastCutbackExitedSlowstart := INVALID_PACKET, false;
      congestionWindow, slowStartThreshold, numAckedPackets := config.initialWindow, MAX_BYTE_COUNT, 0;
    }

    method OnPacketSent(packetNumber: nat, isRetransmittable: bool)
      requires Valid()
      modifies `largestSentPacketNumber
      ensures Valid() && Abs() == Step(old(Abs()), Sent(packetNumber, isRetransmittable))
    {
      if !isRetransmittable {
        return;
      }
      largestSentPacketNumber := packetNumber;
    }

    method MaybeExitSlowStart(shouldExit: bool)
      requires Valid()
      modifies `slowStartThreshold
      ensures Valid() && Abs() == Step(old(Abs()), SlowStartCheck(shouldExit))
    {
      if congestionWindow < slowStartThreshold && shouldExit {
        slowStartThreshold := congestionWindow;
      }
    }

    method OnPacketAcked(number: nat, ackedBytes: nat, priorInFlight: nat, minRtt: nat, eventTime: Time)
      requires Valid()
      modifies this, cubic
      ensures Valid() && Abs() == Step(old(Abs()), Acked(number, ackedBytes, priorInFlight, minRtt, eventTime))
    {
      StepKeepsInv(Abs(), Acked(number, ackedBytes, priorInFlight, minRtt, eventTime));
      hide MaybeIncreaseWindow;
      largestAckedPacketNumber := Max(number, largestAckedPacketNumber);
      if largestAckedPacketNumber != INVALID_PACKET && largestAckedPacketNumber <= largestSentAtLastCutback {
        return;
      }
      MaybeIncreaseCwnd(ackedBytes, priorInFlight, minRtt, eventTime);
    }

    method MaybeIncreaseCwnd(ackedBytes: nat, priorInFlight: nat, minRtt: nat, eventTime: Time)
      requires Valid()
      modifies `congestionWindow, `numAckedPackets, cubic
      ensures Abs() == MaybeIncreaseWindow(old(Abs()), ackedBytes, priorInFlight, minRtt, eventTime)
    {
      hide Cubic.AfterAck;
      var inSlowStart := congestionWindow < slowStartThreshold;
      var isCwndLimited := true;
      if priorInFlight < congestionWindow {
        var availableBytes := congestionWindow - priorInFlight;
        var slowStartLimited := inSlowStart && priorInFlight > congestionWindow / 2;
        isCwndLimited := slowStartLimited || availableBytes <= MAX_BURST_PACKETS * config.datagram;
      }
      if !isCwndLimited {
        cubic.OnApplicationLimited();
        return;
      }
      if congestionWindow >= MaxWindow(config) {
        return;
      }
      if inSlowStart {
        congestionWindow := congestionWindow + config.datagram;
        return;
      }
      if config.reno {
        numAckedPackets := numAckedPackets + 1;
        if numAckedPackets >= congestionWindow / config.datagram {
          congestionWindow := congestionWindow + config.datagram;
          numAckedPackets := 0;
        }
      } else {
        var w := cubic.CongestionWindowAfterAck(ackedBytes, congestionWindow, minRtt, eventTime);
        congestionWindow := Min(MaxWindow(config), w);
      }
    }

    method OnCongestionEvent(packetNumber: nat)
      requires Valid()
      modifies this, cubic
      ensures Valid() && Abs() == Step(old(Abs()), Lost(packetNumber))
    {
      StepKeepsInv(Abs(), Lost(packetNumber));
      hide Cubic.AfterLoss;
      if packetNumber <= largestSentAtLastCutback {
        return;
      }
      lastCutbackExitedSlowstart := congestionWindow < slowStartThreshold;
      if config.reno {
        congestionWindow := (congestionWindow as real * RENO_BETA).Floor;
      } else {
        congestionWindow := cubic.CongestionWindowAfterPacketLoss(congestionWindow);
      }
      if congestionWindow < MinWindow(config) {
        congestionWindow := MinWindow(config);
      }
      slowStartThreshold := congestionWindow;
      largestSentAtLastCutback := largestSentPacketNumber;
      numAckedPackets := 0;
    }

    method OnRetransmissionTimeout(packetsRetransmitted: bool)
      requires Valid()
      modifies this, cubic
      ensures Valid() && Abs() == Step(old(Abs()), Timeout(packetsRetransmitted))
    {
      StepKeepsInv(Abs(), Timeout(packetsRetransmitted));
      largestSentAtLastCutback := INVALID_PACKET;
      if !packetsRetransmitted {
        return;
      }
      cubic.DoReset();
      slowStartThreshold := congestionWindow / 2;
      congestionWindow := MinWindow(config);
    }

    method OnConnectionMigration()
      requires Valid()
      modifies this, cubic
      ensures Valid() && Abs() == Step(old(Abs()), Migrated)
    {
      StepKeepsInv(Abs(), Migrated);
      largestSentPacketNumber := INVALID_PACKET;
      largestAckedPacketNumber := INVALID_PACKET;
      largestSentAtLastCutback := INVALID_PACKET;
      lastCutbackExitedSlowstart := false;
      cubic.DoReset();
      numAckedPackets := 0;
      congestionWindow := config.initialWindow;
      slowStartThreshold := config.initialMaxWindow;
    }
  }
}
