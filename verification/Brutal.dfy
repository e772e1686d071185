/** The Brutal sender of internal/congestion/brutal/brutal.go: a fixed rate corrected by the recent ack rate. */
module Brutal {
  import opened Common

  const SLOTS: nat := 5
  const MIN_SAMPLES: nat := 50
  const MIN_ACK_RATE: real := 0.8

  datatype Tally = Tally(acks: nat, losses: nat)

  /** The side of a tally: its losses or its acks. */
  function Count(t: Tally, losses: bool): nat { if losses then t.losses else t.acks }

  /** One congestion event: the Unix second it falls in and how many packets it acks and loses. */
  datatype Event = Event(second: nat, tally: Tally)

  datatype PktInfo = PktInfo(timestamp: int, tally: Tally)

  // ---------- What the slots are supposed to count ----------

  ghost function CountBetween(log: seq<Event>, from: int, to: int, losses: bool): nat {
    if log == [] then 0
    else
      var e := log[|log| - 1];
      CountBetween(log[..|log| - 1], from, to, losses) + if from <= e.second <= to then Count(e.tally, losses) else 0
  }

  ghost function CountIn(log: seq<Event>, second: int, losses: bool): nat {
    CountBetween(log, second, second, losses)
  }

  /** The packets of all events in the five seconds that end with `now`. */
  ghost function LastFiveSeconds(log: seq<Event>, now: int): Tally {
    Tally(CountBetween(log, now - 4, now, false), CountBetween(log, now - 4, now, true))
  }

  ghost predicate InOrder(log: seq<Event>) {
    forall i, j :: 0 <= i <= j < |log| ==> log[i].second <= log[j].second
  }

  lemma {:induction false} FiveSingleSeconds(log: seq<Event>, now: int, losses: bool)
    ensures CountBetween(log, now - 4, now, losses)
         == CountIn(log, now, losses) + CountIn(log, now - 1, losses) + CountIn(log, now - 2, losses)
            + CountIn(log, now - 3, losses) + CountIn(log, now - 4, losses)
  {
    if log != [] {
      FiveSingleSeconds(log[..|log| - 1], now, losses);
    }
  }

  lemma {:induction false} NothingIn(log: seq<Event>, second: int, losses: bool)
    requires forall e :: e in log ==> e.second != second
    ensures CountIn(log, second, losses) == 0
  {
    if log != [] {
      NothingIn(log[..|log| - 1], second, losses);
    }
  }

  // ---------- The slots ----------

  /** A slot belongs to one residue modulo five and holds the latest second of that residue that had an event. */
  ghost predicate SlotReflects(info: PktInfo, r: nat, log: seq<Event>) {
    && (forall e :: e in log && e.second % SLOTS == r ==> e.second <= info.timestamp)
    && (info.timestamp % SLOTS == r ==> forall losses :: Count(info.tally, losses) == CountIn(log, info.timestamp, losses))
    && (info.timestamp % SLOTS != r ==> info.tally == Tally(0, 0) && forall e :: e in log ==> e.second % SLOTS != r)
    && (info.timestamp == 0 || exists e :: e in log && e.second == info.timestamp)
  }

  ghost predicate Reflects(slots: seq<PktInfo>, log: seq<Event>) {
    |slots| == SLOTS && forall r :: 0 <= r < SLOTS ==> SlotReflects(slots[r], r, log)
  }

  function Recorded(slots: seq<PktInfo>, e: Event): seq<PktInfo>
    requires |slots| == SLOTS
  {
    var slot := e.second % SLOTS;
    var info := slots[slot];
    slots[slot := if info.timestamp == e.second
                  then PktInfo(e.second, Tally(info.tally.acks + e.tally.acks, info.tally.losses + e.tally.losses))
                  else PktInfo(e.second, e.tally)]
  }

  lemma CountOneMore(log: seq<Event>, e: Event, second: int, losses: bool)
    ensures CountIn(log + [e], second, losses)
         == CountIn(log, second, losses) + if e.second == second then Count(e.tally, losses) else 0
  {
    assert (log + [e])[..|log|] == log;
  }

  lemma RecordedInOwnSlot(slots: seq<PktInfo>, log: seq<Event>, e: Event)
    requires |slots| == SLOTS && SlotReflects(slots[e.second % SLOTS], e.second % SLOTS, log)
    requires forall d :: d in log ==> d.second <= e.second
    ensures SlotReflects(Recorded(slots, e)[e.second % SLOTS], e.second % SLOTS, log + [e])
  {
    var info := slots[e.second % SLOTS];
    if info.timestamp != e.second {
      NothingIn(log, e.second, false);
      NothingIn(log, e.second, true);
    }
    CountOneMore(log, e, e.second, false);
    CountOneMore(log, e, e.second, true);
    assert e in log + [e];
  }

  lemma RecordedElsewhere(info: PktInfo, r: nat, log: seq<Event>, e: Event)
    requires SlotReflects(info, r, log) && r < SLOTS && e.second % SLOTS != r
    ensures SlotReflects(info, r, log + [e])
  {
    CountOneMore(log, e, info.timestamp, false);
    CountOneMore(log, e, info.timestamp, true);
    if info.timestamp != 0 {
      var d :| d in log && d.second == info.timestamp;
      assert d in log + [e];
    }
  }

  lemma RecordedReflects(slots: seq<PktInfo>, log: seq<Event>, e: Event)
    requires Reflects(slots, log) && InOrder(log + [e])
    ensures Reflects(Recorded(slots, e), log + [e])
  {
    hide SlotReflects;
    forall d | d in log ensures d.second <= e.second {
      var i :| 0 <= i < |log| && log[i] == d;
      assert (log + [e])[i].second <= (log + [e])[|log|].second;
    }
    RecordedInOwnSlot(slots, log, e);
    forall r | 0 <= r < SLOTS && r != e.second % SLOTS ensures SlotReflects(Recorded(slots, e)[r], r, log + [e]) {
      RecordedElsewhere(slots[r], r, log, e);
    }
  }

  /** What a slot adds to the sum of `updateAckRate`: the cutoff admits a timestamp of now - 5. */
  function Share(info: PktInfo, now: int, losses: bool): nat {
    if info.timestamp < now - SLOTS then 0 else Count(info.tally, losses)
  }

  /** The slot of a second `back` seconds before one that falls in slot r. */
  function SlotBefore(r: nat, back: nat): nat
    requires r < SLOTS && back < SLOTS
  {
    if back <= r then r - back else r - back + SLOTS
  }

  /** The slot of a second in the window contributes exactly the packets of that second. */
  lemma ShareIsSecond(slots: seq<PktInfo>, log: seq<Event>, now: nat, back: nat, losses: bool)
    requires Reflects(slots, log) && back < SLOTS
    requires slots[now % SLOTS].timestamp == now && forall e :: e in log ==> e.second <= now
    ensures Share(slots[SlotBefore(now % SLOTS, back)], now, losses) == CountIn(log, now - back, losses)
  {
    var second := now - back;
    var r := SlotBefore(now % SLOTS, back);
    SlotOfSecond(now, back);
    var info := slots[r];
    assert SlotReflects(info, r, log);
    if info.timestamp != second {
      if info.timestamp % SLOTS == r {
        SecondsOfSlotAreFiveApart(info.timestamp, second);
      }
      assert info.timestamp <= now;
      assert forall e :: e in log ==> e.second != second;
      NothingIn(log, second, losses);
    }
  }

  lemma SlotOfSecond(now: nat, back: nat)
    requires back < SLOTS
    ensures (now - back) % SLOTS == SlotBefore(now % SLOTS, back)
  {
  }

  lemma SecondsOfSlotAreFiveApart(a: int, b: int)
    requires a != b && a % SLOTS == b % SLOTS
    ensures a <= b - SLOTS || b <= a - SLOTS
  {
  }

  ghost function SumShares(slots: seq<PktInfo>, now: int, losses: bool): nat {
    if slots == [] then 0
    else SumShares(slots[..|slots| - 1], now, losses) + Share(slots[|slots| - 1], now, losses)
  }

  lemma FiveShares(slots: seq<PktInfo>, now: int, losses: bool)
    requires |slots| == SLOTS
    ensures SumShares(slots, now, losses)
         == Share(slots[0], now, losses) + Share(slots[1], now, losses) + Share(slots[2], now, losses)
            + Share(slots[3], now, losses) + Share(slots[4], now, losses)
  {
    for i := 0 to SLOTS
      invariant SumShares(slots[..i], now, losses)
             == (if i > 0 then Share(slots[0], now, losses) else 0) + (if i > 1 then Share(slots[1], now, losses) else 0)
                + (if i > 2 then Share(slots[2], now, losses) else 0) + (if i > 3 then Share(slots[3], now, losses) else 0)
                + (if i > 4 then Share(slots[4], now, losses) else 0)
    {
      assert slots[..i + 1][..i] == slots[..i];
    }
    assert slots[..SLOTS] == slots;
  }

  /** The five slots sum up exactly the events of the last five seconds, although the cutoff admits now - 5. */
  lemma SlotsCountLastFiveSeconds(slots: seq<PktInfo>, log: seq<Event>, now: nat, losses: bool)
    requires Reflects(slots, log)
    requires slots[now % SLOTS].timestamp == now && forall e :: e in log ==> e.second <= now
    ensures SumShares(slots, now, losses) == Count(LastFiveSeconds(log, now), losses)
  {
    hide SlotReflects;
    hide Share;
    hide SumShares;
    hide CountBetween;
    hide CountIn;
    FiveShares(slots, now, losses);
    FiveSingleSeconds(log, now, losses);
    ShareIsSecond(slots, log, now, 0, losses);
    ShareIsSecond(slots, log, now, 1, losses);
    ShareIsSecond(slots, log, now, 2, losses);
    ShareIsSecond(slots, log, now, 3, losses);
    ShareIsSecond(slots, log, now, 4, losses);
    var r := now % SLOTS;
    assert r == 0 || r == 1 || r == 2 || r == 3 || r == 4;
  }

  /** After recording an event, the slots reflect the longer log and sum up its last five seconds. */
  lemma RecordingCounts(slots: seq<PktInfo>, log: seq<Event>, e: Event)
    requires Reflects(slots, log) && InOrder(log) && (log != [] ==> log[|log| - 1].second <= e.second)
    ensures InOrder(log + [e]) && Reflects(Recorded(slots, e), log + [e])
    ensures forall losses :: SumShares(Recorded(slots, e), e.second, losses)
                          == Count(LastFiveSeconds(log + [e], e.second), losses)
  {
    hide SlotReflects;
    hide SumShares;
    hide LastFiveSeconds;
    var log' := log + [e];
    assert InOrder(log');
    RecordedReflects(slots, log, e);
    forall d | d in log' ensures d.second <= e.second {
      var i :| 0 <= i < |log'| && log'[i] == d;
      assert log'[i].second <= log'[|log|].second;
    }
    SlotsCountLastFiveSeconds(Recorded(slots, e), log', e.second, false);
    SlotsCountLastFiveSeconds(Recorded(slots, e), log', e.second, true);
  }

  // ---------- The rate ----------

  function AckRate(t: Tally): real {
    if t.acks + t.losses < MIN_SAMPLES then 1.0
    else
      var rate := t.acks as real / (t.acks + t.losses) as real;
      if rate < MIN_ACK_RATE then MIN_ACK_RATE else rate
  }

  function PacingRate(bps: nat, ackRate: real): int
    requires ackRate > 0.0
  {
    (bps as real / ackRate).Floor
  }

  /** An ack rate between 0.8 and 1 keeps the pacing rate between the configured rate and a quarter above it. */
  lemma PacingStaysNear(bps: nat, rate: real)
    requires MIN_ACK_RATE <= rate <= 1.0
    ensures bps <= PacingRate(bps, rate) && 4 * PacingRate(bps, rate) <= 5 * bps
  {
    var q := bps as real / rate;
    assert q * rate == bps as real;
    assert q >= bps as real by {
      assert q * rate <= q * 1.0;
    }
    assert q * 0.8 <= bps as real by {
      assert q * 0.8 <= q * rate;
    }
  }

  /** The ack rate is the share of the acked packets among at least 50, never taken below 0.8, and 1 below 50. */
  lemma AckRateIsShare(t: Tally)
    ensures var n := t.acks + t.losses;
            && (n < MIN_SAMPLES ==> AckRate(t) == 1.0)
            && (n >= MIN_SAMPLES && 10 * t.acks >= 8 * n ==> AckRate(t) * n as real == t.acks as real)
            && (n >= MIN_SAMPLES && 10 * t.acks < 8 * n ==> AckRate(t) == 0.8)
  {
    var n := t.acks + t.losses;
    if n >= MIN_SAMPLES {
      ShareCompares(t.acks as real, n as real);
    }
  }

  lemma ShareCompares(a: real, n: real)
    requires n > 0.0
    ensures a / n * n == a
    ensures a / n >= 0.8 <==> 10.0 * a >= 8.0 * n
  {
    var q := a / n;
    if q >= 0.8 {
      TimesRate(0.8, q, n);
    } else {
      TimesRateStrictly(q, 0.8, n);
    }
  }

  /** What is sent at the pacing rate amounts, after losses at the ack rate, to the configured rate, rounded down. */
  lemma PacingMakesUpForLosses(bps: nat, rate: real)
    requires MIN_ACK_RATE <= rate <= 1.0
    ensures PacingRate(bps, rate) as real * rate <= bps as real < (PacingRate(bps, rate) as real + 1.0) * rate
  {
    var x, p := bps as real, PacingRate(bps, rate) as real;
    assert p <= x / rate < p + 1.0;
    hide *;
    FloorTimesRate(x, x / rate, p, rate);
  }

  lemma FloorTimesRate(x: real, q: real, p: real, rate: real)
    requires rate > 0.0 && q == x / rate && p <= q < p + 1.0
    ensures p * rate <= x < (p + 1.0) * rate
  {
    assert q * rate == x;
    TimesRate(p, q, rate);
    TimesRateStrictly(q, p + 1.0, rate);
  }

  lemma TimesRate(a: real, b: real, rate: real)
    requires a <= b && rate > 0.0
    ensures a * rate <= b * rate
  {
  }

  lemma TimesRateStrictly(a: real, b: real, rate: real)
    requires a < b && rate > 0.0
    ensures a * rate < b * rate
  {
  }

  /** The correction is bounded: pacing is never below the configured rate and at most a quarter above it. */
  lemma PacingIsBounded(bps: nat, t: Tally)
    ensures MIN_ACK_RATE <= AckRate(t) <= 1.0
    ensures bps <= PacingRate(bps, AckRate(t)) && 4 * PacingRate(bps, AckRate(t)) <= 5 * bps
  {
    if t.acks + t.losses >= MIN_SAMPLES {
      var n := (t.acks + t.losses) as real;
      assert t.acks as real / n <= 1.0 by {
        assert t.acks as real <= n;
      }
    }
    PacingStaysNear(bps, AckRate(t));
  }

  class BrutalSender {
    const bps: nat
    const pktInfoSlots: array<PktInfo>
    var ackRate: real
    ghost var log: seq<Event>

    ghost predicate Valid()
      reads this, pktInfoSlots
    {
      && pktInfoSlots.Length == SLOTS && InOrder(log)
      && Reflects(pktInfoSlots[..], log)
      && MIN_ACK_RATE <= ackRate <= 1.0
    }

    constructor (bps: nat)
      ensures Valid() && fresh(pktInfoSlots) && this.bps == bps && log == [] && ackRate == 1.0
    {
      this.bps := bps;
      pktInfoSlots := new PktInfo[SLOTS](_ => PktInfo(0, Tally(0, 0)));
      ackRate := 1.0;
      log := [];
    }

    /** The ack rate after an event is that of all events in the last five seconds of the whole history. */
    method OnCongestionEventEx(second: nat, acked: nat, lost: nat)
      requires Valid() && (log != [] ==> log[|log| - 1].second <= second)
      modifies this, pktInfoSlots
      ensures Valid() && log == old(log) + [Event(second, Tally(acked, lost))]
      ensures ackRate == AckRate(LastFiveSeconds(log, second))
    {
      hide Reflects;
      hide SumShares;
      hide LastFiveSeconds;
      hide InOrder;
      var slot := second % SLOTS;
      ghost var before, event := pktInfoSlots[..], Event(second, Tally(acked, lost));
      RecordingCounts(before, log, event);
      if pktInfoSlots[slot].timestamp == second {
        var t := pktInfoSlots[slot].tally;
        pktInfoSlots[slot] := PktInfo(second, Tally(t.acks + acked, t.losses + lost));
      } else {
        pktInfoSlots[slot] := PktInfo(second, Tally(acked, lost));
      }
      assert pktInfoSlots[..] == Recorded(before, event);
      log := log + [event];
      UpdateAckRate(second);
      PacingIsBounded(bps, LastFiveSeconds(log, second));
      assert Tally(SumShares(pktInfoSlots[..], second, false), SumShares(pktInfoSlots[..], second, true))
          == LastFiveSeconds(log, second);
    }

    method UpdateAckRate(now: int)
      requires pktInfoSlots.Length == SLOTS
      modifies `ackRate
      ensures ackRate == AckRate(Tally(SumShares(pktInfoSlots[..], now, false), SumShares(pktInfoSlots[..], now, true)))
    {
      var minTimestamp := now - SLOTS;
      var ackCount, lossCount := 0, 0;
      for i := 0 to SLOTS
        invariant ackCount == SumShares(pktInfoSlots[..i], now, false)
        invariant lossCount == SumShares(pktInfoSlots[..i], now, true)
      {
        assert pktInfoSlots[..i + 1][..i] == pktInfoSlots[..i];
        var info := pktInfoSlots[i];
        if info.timestamp < minTimestamp {
          continue;
        }
        ackCount := ackCount + info.tally.acks;
        lossCount := lossCount + info.tally.losses;
      }
      assert pktInfoSlots[..SLOTS] == pktInfoSlots[..];
      if ackCount + lossCount < MIN_SAMPLES {
        ackRate := 1.0;
        return;
      }
      var rate := ackCount as real / (ackCount + lossCount) as real;
      if rate < MIN_ACK_RATE {
        ackRate := MIN_ACK_RATE;
        return;
      }
      ackRate := rate;
    }

    /** The rate handed to the pacer, never below the configured one and at most a quarter above it. */
    method GetPacingRate() returns (rate: int)
      requires Valid()
      ensures rate == PacingRate(bps, ackRate)
      ensures bps <= rate && 4 * rate <= 5 * bps
      ensures rate as real * ackRate <= bps as real < (rate as real + 1.0) * ackRate
    {
      PacingStaysNear(bps, ackRate);
      PacingMakesUpForLosses(bps, ackRate);
      rate := (bps as real / ackRate).Floor;
    }
  }
}
