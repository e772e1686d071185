/** What the ack-aggregation tracker measures over a whole log of ack events. */
module AckEpochs {
  import opened Common
  import opened WindowedFilters
  import opened AckHeights

  datatype AckEvent = AckEvent(
    bandwidth: Bandwidth,
    isNewMaxBandwidth: bool,
    round: nat,
    lastSent: int,
    lastAcked: int,
    ackTime: Time,
    bytes: nat)

  function Step(t: Tracker, e: AckEvent): (Tracker, int) {
    UpdatedTracker(t, e.bandwidth, e.isNewMaxBandwidth, e.round, e.lastSent, e.lastAcked, e.ackTime, e.bytes)
  }

  ghost function After(t: Tracker, log: seq<AckEvent>): Tracker {
    if log == [] then t else Step(After(t, log[..|log| - 1]), log[|log| - 1]).0
  }

  /** No epoch is under way and no height is recorded; all options are open. */
  ghost predicate IsNew(t: Tracker) {
    t.epochStart == NO_TIME && t.heights == Same(Entry(NO_EVENT, 0)) && t.threshold >= 1.0
  }

  // ---------- The log ----------

  /** The bytes acked by the events from position k on. */
  ghost function BytesSince(log: seq<AckEvent>, k: nat): nat
    requires k <= |log|
  {
    if k == |log| then 0 else BytesSince(log[..|log| - 1], k) + log[|log| - 1].bytes
  }

  /** The bytes that an event's bandwidth estimate delivers between event k and it. */
  ghost function ExpectedSince(log: seq<AckEvent>, k: nat, e: AckEvent): int
    requires k < |log|
  {
    BytesFromBandwidth(e.bandwidth, e.ackTime - log[k].ackTime)
  }

  /** Short of overflow, those are the bits of the bandwidth over the nanoseconds, in whole bytes. */
  lemma ExpectedIsProduct(log: seq<AckEvent>, k: nat, e: AckEvent)
    requires k < |log| && log[k].ackTime <= e.ackTime
    requires e.bandwidth * (e.ackTime - log[k].ackTime) < TWO_TO_THE_63
    ensures ExpectedSince(log, k, e) == e.bandwidth * (e.ackTime - log[k].ackTime) / (8 * SECOND)
  {
    assert e.bandwidth * (e.ackTime - log[k].ackTime) >= 0;
  }

  /** The event ends the epoch that event k began: it acks a packet sent after that (with the option on), or the acks since
      then were no faster than the threshold times the bandwidth estimate. */
  ghost predicate EndsEpoch(t: Tracker, log: seq<AckEvent>, k: nat, e: AckEvent)
    requires k < |log|
  {
    || log[k].ackTime == NO_TIME
    || (t.newEpochAfterFullRound && log[k].lastSent != INVALID_PACKET && e.lastAcked != INVALID_PACKET
        && e.lastAcked > log[k].lastSent)
    || BytesSince(log, k) <= (t.threshold * ExpectedSince(log, k, e) as real).Floor
  }

  /** The event that began the epoch under way. */
  ghost function EpochStart(t: Tracker, log: seq<AckEvent>): (k: nat)
    requires log != []
    ensures k < |log|
  {
    var n := |log| - 1;
    if n == 0 then 0
    else
      var k := EpochStart(t, log[..n]);
      if EndsEpoch(t, log[..n], k, log[n]) then n else k
  }

  /** The height that the last event of a log measures in the epoch that event k began: with the expected bytes where its
      documentation has the excess, and no round. */
  ghost function Height(log: seq<AckEvent>, k: nat): Entry<ExtraAcked>
    requires k < |log|
  {
    var e := log[|log| - 1];
    Entry(ExtraAcked(ExpectedSince(log, k, e), BytesSince(log, k), e.ackTime - log[k].ackTime, 0), e.round)
  }

  /** The heights that the events feed to the filter: one for each event inside an epoch. */
  ghost function Fed(t: Tracker, log: seq<AckEvent>): seq<Entry<ExtraAcked>> {
    if log == [] then []
    else
      var n, k := |log| - 1, EpochStart(t, log);
      Fed(t, log[..n]) + if k == n then [] else [Height(log, k)]
  }

  // ---------- The tracker against the log ----------

  ghost predicate SameOptions(t: Tracker, u: Tracker) {
    && u.threshold == t.threshold && u.newEpochAfterFullRound == t.newEpochAfterFullRound && u.window == t.window
    && u.reduceOnBandwidthIncrease == t.reduceOnBandwidthIncrease
  }

  /** What one event does, for any way of recomputing the heights. */
  lemma StepEffect(t: Tracker, e: AckEvent)
    ensures var (u, extra) := Step(t, e);
            var expected := BytesFromBandwidth(e.bandwidth, e.ackTime - t.epochStart);
            && SameOptions(t, u)
            && if StartsEpoch(t, e.bandwidth, e.lastAcked, e.ackTime) then
                 && extra == 0 && u.epochStart == e.ackTime && u.epochBytes == e.bytes && u.lastSentBeforeEpoch == e.lastSent
                 && (!t.reduceOnBandwidthIncrease ==> u.heights == t.heights)
               else
                 && extra == t.epochBytes + e.bytes - expected
                 && u.epochStart == t.epochStart && u.epochBytes == t.epochBytes + e.bytes
                 && u.lastSentBeforeEpoch == t.lastSentBeforeEpoch
                 && (!t.reduceOnBandwidthIncrease ==>
                       u.heights == Updated(HEIGHT, t.window, t.heights,
                                            ExtraAcked(expected, t.epochBytes + e.bytes, e.ackTime - t.epochStart, 0), e.round))
  {
    hide Updated;
    hide Reduced;
    hide BytesFromBandwidth;
    StartsWithAnyHeights(t, Reduced(t.window, t.heights, e.bandwidth), e);
    hide StartsEpoch;
  }

  lemma StartsWithAnyHeights(t: Tracker, h: Estimates<ExtraAcked>, e: AckEvent)
    ensures StartsEpoch(t.(heights := h), e.bandwidth, e.lastAcked, e.ackTime)
         == StartsEpoch(t, e.bandwidth, e.lastAcked, e.ackTime)
  {
  }

  ghost predicate Reflects(t: Tracker, log: seq<AckEvent>, k: nat)
    requires k < |log|
  {
    && t.epochStart == log[k].ackTime && t.epochBytes == BytesSince(log, k)
    && t.lastSentBeforeEpoch == log[k].lastSent
  }

  lemma BytesOneMore(log: seq<AckEvent>, k: nat)
    requires k < |log|
    ensures BytesSince(log, k) == BytesSince(log[..|log| - 1], k) + log[|log| - 1].bytes
  {
  }

  /** On every log, the tracker knows the time, the bytes and the last packet of the epoch under way, and an event reports
      the bytes acked in its epoch beyond those expected, or 0 if it begins one. */
  lemma {:induction false} EpochIsExact(t: Tracker, log: seq<AckEvent>)
    requires IsNew(t) && log != []
    ensures var n, k := |log| - 1, EpochStart(t, log);
            && Reflects(After(t, log), log, k) && SameOptions(t, After(t, log))
            && Step(After(t, log[..n]), log[n]).1 == if k == n then 0 else BytesSince(log, k) - ExpectedSince(log, k, log[n])
  {
    hide Step;
    hide BytesFromBandwidth;
    hide BytesSince;
    var n := |log| - 1;
    var past, e := log[..n], log[n];
    StepEffect(After(t, past), e);
    BytesOneMore(log, n);
    NoBytes(past);
    if n > 0 {
      EpochIsExact(t, past);
      BytesOneMore(log, EpochStart(t, past));
    }
  }

  lemma NoBytes(log: seq<AckEvent>)
    ensures BytesSince(log, |log|) == 0
  {
  }

  lemma StartsExactly(t: Tracker, log: seq<AckEvent>)
    requires IsNew(t) && log != []
    ensures var n, u, e := |log| - 1, After(t, log[..|log| - 1]), log[|log| - 1];
            && SameOptions(t, u)
            && (StartsEpoch(u, e.bandwidth, e.lastAcked, e.ackTime) <==> EpochStart(t, log) == n)
            && (n > 0 && EpochStart(t, log) < n ==> Reflects(u, log[..n], EpochStart(t, log)))
  {
    hide Step;
    hide BytesFromBandwidth;
    hide BytesSince;
    if |log| > 1 {
      EpochIsExact(t, log[..|log| - 1]);
    }
  }

  lemma HeightsStep(t: Tracker, log: seq<AckEvent>)
    requires IsNew(t) && !t.reduceOnBandwidthIncrease && log != []
    ensures var n, k := |log| - 1, EpochStart(t, log);
            After(t, log).heights == if k == n then After(t, log[..n]).heights
                                     else Updated(HEIGHT, t.window, After(t, log[..n]).heights, Height(log, k).sample,
                                                  Height(log, k).time)
  {
    hide Step;
    hide Updated;
    hide BytesFromBandwidth;
    hide BytesSince;
    var n := |log| - 1;
    var past, e := log[..n], log[n];
    StepEffect(After(t, past), e);
    StartsExactly(t, log);
    hide StartsEpoch;
    hide EpochStart;
    BytesOneMore(log, EpochStart(t, log));
  }

  /** Without reduction on bandwidth increases, the filter holds the replay of all heights fed. */
  lemma {:induction false} HeightsAreReplay(t: Tracker, log: seq<AckEvent>)
    requires IsNew(t) && !t.reduceOnBandwidthIncrease
    ensures After(t, log).heights == Replay(HEIGHT, t.window, NO_EVENT, Fed(t, log))
  {
    if log != [] {
      var n, k := |log| - 1, EpochStart(t, log);
      HeightsAreReplay(t, log[..n]);
      HeightsStep(t, log);
      hide After;
      hide Updated;
      hide Replay;
      hide Height;
      if k < n {
        ReplayOneMore(HEIGHT, t.window, NO_EVENT, Fed(t, log[..n]), Height(log, k));
      } else {
        assert Fed(t, log) == Fed(t, log[..n]);
      }
    }
  }

  // ---------- Reduction on bandwidth increases ----------

  /** The bytes of a recorded height beyond those that a bandwidth delivers in its time. */
  function Excess(e: ExtraAcked, bandwidth: Bandwidth): int { e.bytesAcked - BytesFromBandwidth(bandwidth, e.timeDelta) }

  ghost predicate SameRound(heights: Estimates<ExtraAcked>, round: nat) {
    heights.best.sample.round == round && heights.second.sample.round == round && heights.third.sample.round == round
  }

  /** No height ever carries a round of its own. */
  lemma {:induction false} RoundsAreZero(t: Tracker, log: seq<AckEvent>)
    requires IsNew(t)
    ensures SameRound(After(t, log).heights, 0)
  {
    hide Step;
    if log != [] {
      RoundsAreZero(t, log[..|log| - 1]);
      StepKeepsRound(After(t, log[..|log| - 1]), log[|log| - 1]);
    }
  }

  lemma UpdatedKeepsRound(window: nat, heights: Estimates<ExtraAcked>, e: ExtraAcked, now: int)
    requires SameRound(heights, e.round)
    ensures SameRound(Updated(HEIGHT, window, heights, e, now), e.round)
  {
  }

  lemma ReducedKeepsRound(window: nat, heights: Estimates<ExtraAcked>, bandwidth: Bandwidth)
    requires SameRound(heights, 0)
    ensures SameRound(Reduced(window, heights, bandwidth), 0)
  {
    hide Updated;
    hide BytesFromBandwidth;
    forall h: Estimates<ExtraAcked>, e: ExtraAcked, now: int | SameRound(h, 0) && e.round == 0
      ensures SameRound(Updated(HEIGHT, window, h, e, now), 0)
    {
      UpdatedKeepsRound(window, h, e, now);
    }
  }

  lemma StepKeepsRound(t: Tracker, e: AckEvent)
    requires SameRound(t.heights, 0)
    ensures SameRound(Step(t, e).0.heights, 0)
  {
    hide Updated;
    hide Reduced;
    hide BytesFromBandwidth;
    hide StartsEpoch;
    ReducedKeepsRound(t.window, t.heights, e.bandwidth);
    forall h: Estimates<ExtraAcked>, x: ExtraAcked | SameRound(h, 0) && x.round == 0
      ensures SameRound(Updated(HEIGHT, t.window, h, x, e.round), 0)
    {
      UpdatedKeepsRound(t.window, h, x, e.round);
    }
  }

  /** So when the heights are recomputed for a higher bandwidth, the best becomes the largest excess of the recorded ones over
      it, or 0 if none exceeds it. */
  lemma ReducedIsMaximum(window: nat, heights: Estimates<ExtraAcked>, bandwidth: Bandwidth)
    requires SameRound(heights, 0)
    ensures var h := heights;
            Reduced(window, h, bandwidth).best.sample.extraAcked
              == Max(0, Max(Excess(h.best.sample, bandwidth),
                            Max(Excess(h.second.sample, bandwidth), Excess(h.third.sample, bandwidth))))
  {
    hide BytesFromBandwidth;
  }
}
