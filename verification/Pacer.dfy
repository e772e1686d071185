/** The token-bucket pacer of internal/congestion/common/pacer.go. Its bandwidth callback is a parameter here. */
module Pacing {
  import opened Common

  const MAX_BURST_PACKETS: nat := 10

  /** minDelay is quic-go's MinPacingDelay in nanoseconds. */
  datatype State = State(budget: nat, datagram: nat, lastSent: Time, minDelay: nat)

  function MaxBurst(p: State, bandwidth: nat): nat {
    Max(TruncDiv(Wrap64((p.minDelay + MILLISECOND) * bandwidth), SECOND), MAX_BURST_PACKETS * p.datagram)
  }

  /** `Budget`; the product is an int64, and a negative sum, which only its overflow or a clock running backwards can
      give, counts as 2^62 - 1. */
  function Budget(p: State, bandwidth: nat, now: Time): nat {
    if p.lastSent == NO_TIME then MaxBurst(p, bandwidth)
    else
      var budget := p.budget + TruncDiv(Wrap64(bandwidth * (now - p.lastSent)), SECOND);
      Min(MaxBurst(p, bandwidth), if budget < 0 then 0x3FFF_FFFF_FFFF_FFFF else budget)
  }

  function Sent(p: State, bandwidth: nat, now: Time, size: nat): State {
    var budget := Budget(p, bandwidth, now);
    p.(budget := if size > budget then 0 else budget - size, lastSent := now)
  }

  function CeilDiv(a: nat, b: nat): nat
    requires b > 0
  {
    (a + b - 1) / b
  }

  function TimeUntilSend(p: State, bandwidth: nat): Time
    requires bandwidth > 0
  {
    if p.budget >= p.datagram then NO_TIME
    else p.lastSent + Max(p.minDelay, CeilDiv((p.datagram - p.budget) * SECOND, bandwidth))
  }

  /** The range of the burst computation: its product fits an int64 (below 4.6 * 10^12 bytes per second for a minimum
      delay of 1 ms), and so does a burst of datagrams in nanosecond units. */
  predicate InRange(p: State, bandwidth: nat) {
    (p.minDelay + MILLISECOND) * bandwidth < TWO_TO_THE_63 && MAX_BURST_PACKETS * p.datagram * SECOND < TWO_TO_THE_63
  }

  /** The burst is what the bandwidth admits in the minimum delay and a millisecond, but at least ten datagrams. */
  lemma BurstIsExact(p: State, bandwidth: nat)
    requires InRange(p, bandwidth)
    ensures var burst, admitted := MaxBurst(p, bandwidth), (p.minDelay + MILLISECOND) * bandwidth;
            && burst >= MAX_BURST_PACKETS * p.datagram && admitted < SECOND * (burst + 1)
            && (burst > MAX_BURST_PACKETS * p.datagram ==> SECOND * burst <= admitted)
  {
    var admitted := (p.minDelay + MILLISECOND) * bandwidth;
    assert admitted >= 0;
    hide *;
    BurstOf(p, bandwidth, admitted);
  }

  lemma BurstOf(p: State, bandwidth: nat, admitted: nat)
    requires admitted == (p.minDelay + MILLISECOND) * bandwidth < TWO_TO_THE_63
    ensures MaxBurst(p, bandwidth) == Max(admitted / SECOND, MAX_BURST_PACKETS * p.datagram)
    ensures admitted < SECOND * (admitted / SECOND + 1) && SECOND * (admitted / SECOND) <= admitted
  {
  }

  /** Before the refill wraps, the budget is the old one plus what the bandwidth has admitted since, up to a burst; a
      transmission takes its size from it, down to an empty bucket. */
  lemma BudgetIsRefill(p: State, bandwidth: nat, now: Time, size: nat)
    requires p.lastSent <= now && bandwidth * (now - p.lastSent) < TWO_TO_THE_63
    ensures var budget := if p.lastSent == NO_TIME then MaxBurst(p, bandwidth)
                          else Min(MaxBurst(p, bandwidth), p.budget + bandwidth * (now - p.lastSent) / SECOND);
            && Budget(p, bandwidth, now) == budget
            && Sent(p, bandwidth, now, size) == p.(budget := Max(0, budget - size), lastSent := now)
  {
    assert bandwidth * (now - p.lastSent) >= 0;
    ExactRefill(bandwidth * (now - p.lastSent));
    hide MaxBurst;
    hide Wrap64;
    hide TruncDiv;
  }

  // ---------- Conformance ----------

  /** One transmission: its time, its size and the bandwidth that the callback reports at that moment. */
  datatype Transmission = Transmission(time: Time, size: nat, bandwidth: nat)

  ghost function Total(ts: seq<Transmission>): nat {
    if ts == [] then 0 else ts[0].size + Total(ts[1..])
  }

  /** Each transmission comes after the one before it and fits the budget of its moment. */
  ghost predicate InBudget(p: State, ts: seq<Transmission>)
    decreases |ts|
  {
    ts == [] ||
    (&& p.lastSent <= ts[0].time && ts[0].time > NO_TIME
     && ts[0].size <= Budget(p, ts[0].bandwidth, ts[0].time)
     && InBudget(Sent(p, ts[0].bandwidth, ts[0].time, ts[0].size), ts[1..]))
  }

  lemma ProductsMonotone(a: nat, b: nat, c: nat)
    requires a <= b
    ensures a * c <= b * c && c * a <= c * b
  {
  }

  /** Budgets grow with the reported bandwidth; where the refill wraps, the guard grants no more than the exact refill. */
  lemma BudgetBound(p: State, bandwidth: nat, limit: nat, now: Time)
    requires bandwidth <= limit && p.lastSent <= now && InRange(p, limit)
    ensures Budget(p, bandwidth, now) <= MaxBurst(p, limit)
    ensures p.lastSent != NO_TIME ==> Budget(p, bandwidth, now) <= p.budget + limit * (now - p.lastSent) / SECOND
  {
    ProductsMonotone(bandwidth, limit, p.minDelay + MILLISECOND);
    ProductsMonotone(bandwidth, limit, now - p.lastSent);
  }

  lemma SpansAdd(rate: nat, s: nat, t: nat)
    ensures rate * s / SECOND + rate * t / SECOND <= rate * (s + t) / SECOND
  {
    assert rate * s + rate * t == rate * (s + t);
  }

  lemma {:induction false} TotalBound(p: State, ts: seq<Transmission>, limit: nat)
    requires p.lastSent != NO_TIME && InBudget(p, ts) && InRange(p, limit)
    requires forall i :: 0 <= i < |ts| ==> ts[i].bandwidth <= limit
    ensures ts != [] ==>
              && p.lastSent <= ts[|ts| - 1].time
              && Total(ts) <= p.budget + limit * (ts[|ts| - 1].time - p.lastSent) / SECOND
    decreases |ts|
  {
    if ts != [] {
      var t, rest := ts[0], ts[1..];
      var q := Sent(p, t.bandwidth, t.time, t.size);
      BudgetBound(p, t.bandwidth, limit, t.time);
      TotalBound(q, rest, limit);
      if rest != [] {
        var end := rest[|rest| - 1].time;
        assert ts[|ts| - 1] == rest[|rest| - 1];
        SpansAdd(limit, t.time - p.lastSent, end - t.time);
      }
    }
  }

  /** Token-bucket conformance: whatever the state before and however the bandwidth varies below a limit,
      consecutive in-budget transmissions carry at most one burst plus what the limit admits in their time span. */
  lemma Conformance(p: State, ts: seq<Transmission>, limit: nat)
    requires ts != [] && InBudget(p, ts) && InRange(p, limit)
    requires forall i :: 0 <= i < |ts| ==> ts[i].bandwidth <= limit
    ensures ts[0].time <= ts[|ts| - 1].time
    ensures Total(ts) <= MaxBurst(p, limit) + limit * (ts[|ts| - 1].time - ts[0].time) / SECOND
  {
    var t, rest := ts[0], ts[1..];
    BudgetBound(p, t.bandwidth, limit, t.time);
    TotalBound(Sent(p, t.bandwidth, t.time, t.size), rest, limit);
    if rest != [] {
      assert ts[|ts| - 1] == rest[|rest| - 1];
    }
  }

  // ---------- Wake-up time ----------

  /** After t nanoseconds the refill covers `missing` bytes exactly when t has reached the rounded-up quotient. */
  lemma RefillTime(missing: nat, bandwidth: nat, t: nat)
    requires bandwidth > 0
    ensures bandwidth * t / SECOND >= missing <==> t >= CeilDiv(missing * SECOND, bandwidth)
  {
    var need := missing * SECOND;
    var c: int := CeilDiv(need, bandwidth);
    assert bandwidth * c >= need && bandwidth * (c - 1) < need by {
      var r := (need + bandwidth - 1) % bandwidth;
      assert need + bandwidth - 1 == bandwidth * c + r;
      assert bandwidth * (c - 1) == bandwidth * c - bandwidth;
    }
    if t >= c {
      ProductsMonotone(c, t, bandwidth);
    } else {
      ProductsMonotone(t, c - 1, bandwidth);
      assert bandwidth * t < missing * SECOND;
    }
  }

  /** The pacer's alarm is set exactly when a datagram does not fit now, and when it rings a datagram fits. */
  lemma WakeUpSuffices(p: State, bandwidth: nat)
    requires bandwidth > 0 && InRange(p, bandwidth)
    ensures TimeUntilSend(p, bandwidth) != NO_TIME <==> p.budget < p.datagram
    ensures TimeUntilSend(p, bandwidth) != NO_TIME ==>
              && TimeUntilSend(p, bandwidth) >= p.lastSent + p.minDelay
              && Budget(p, bandwidth, TimeUntilSend(p, bandwidth)) >= p.datagram
  {
    if p.budget < p.datagram {
      var missing := p.datagram - p.budget;
      RefillTime(missing, bandwidth, TimeUntilSend(p, bandwidth) - p.lastSent);
      RefillTime(missing, bandwidth, 0);
      WakeUpIsInRange(p, bandwidth);
    }
  }

  /** The refill up to the wake-up time does not wrap. */
  lemma WakeUpIsInRange(p: State, bandwidth: nat)
    requires bandwidth > 0 && InRange(p, bandwidth) && p.budget < p.datagram
    ensures bandwidth * (TimeUntilSend(p, bandwidth) - p.lastSent) < TWO_TO_THE_63
  {
    var need := (p.datagram - p.budget) * SECOND;
    var c := CeilDiv(need, bandwidth);
    assert bandwidth * c <= need + bandwidth by {
      assert need + bandwidth - 1 == bandwidth * c + (need + bandwidth - 1) % bandwidth;
    }
    ProductsMonotone(p.minDelay, p.minDelay + MILLISECOND, bandwidth);
    ProductsMonotone(MILLISECOND, p.minDelay + MILLISECOND, bandwidth);
  }

  /** The refill is exact, or its wrapped value is so far below zero that the guard catches it. */
  predicate GuardHolds(p: State, bandwidth: nat, now: Time) {
    var product := bandwidth * (now - p.lastSent);
    product < TWO_TO_THE_63 || product + (p.budget + 1) * SECOND <= TWO_TO_THE_64
  }

  /** Once the alarm has rung, or if it was never set, a datagram fits and keeps fitting, up to the moment when the refill
      has wrapped beyond the reach of the guard. */
  lemma BudgetLasts(p: State, bandwidth: nat, now: Time)
    requires bandwidth > 0 && InRange(p, bandwidth)
    requires p.lastSent <= now && TimeUntilSend(p, bandwidth) <= now && GuardHolds(p, bandwidth, now)
    ensures Budget(p, bandwidth, now) >= p.datagram
  {
    RefillReaches(p, bandwidth, now);
    var product := bandwidth * (now - p.lastSent);
    assert product < TWO_TO_THE_63 || product + (p.budget + 1) * SECOND <= TWO_TO_THE_64;
    hide *;
    SumCovers(p.budget, p.datagram, product);
    GuardCovers(p, bandwidth, now);
  }

  /** From the alarm on, the exact refill covers what is missing. */
  lemma RefillReaches(p: State, bandwidth: nat, now: Time)
    requires bandwidth > 0 && p.lastSent <= now && TimeUntilSend(p, bandwidth) <= now
    ensures var product := bandwidth * (now - p.lastSent);
            product >= 0 && (p.budget < p.datagram ==> product / SECOND >= p.datagram - p.budget)
  {
    if p.budget < p.datagram {
      var missing, elapsed := p.datagram - p.budget, now - p.lastSent;
      assert elapsed >= CeilDiv(missing * SECOND, bandwidth);
      hide *;
      RefillTime(missing, bandwidth, elapsed);
    }
    ProductIsNatural(bandwidth, now - p.lastSent);
  }

  lemma ProductIsNatural(a: nat, b: nat)
    ensures a * b >= 0
  {
  }

  lemma SumCovers(budget: nat, datagram: nat, product: nat)
    requires budget < datagram ==> product / SECOND >= datagram - budget
    requires product < TWO_TO_THE_63 || product + (budget + 1) * SECOND <= TWO_TO_THE_64
    ensures var sum := budget + TruncDiv(Wrap64(product), SECOND); sum >= datagram || sum < 0
  {
    if product < TWO_TO_THE_63 {
      ExactRefill(product);
    } else {
      WrappedSumIsNegative(budget, product);
    }
  }

  lemma ExactRefill(product: nat)
    requires product < TWO_TO_THE_63
    ensures TruncDiv(Wrap64(product), SECOND) == product / SECOND
  {
  }

  /** A sum that covers a datagram, or is negative, makes a datagram fit. */
  lemma GuardCovers(p: State, bandwidth: nat, now: Time)
    requires InRange(p, bandwidth)
    requires var sum := p.budget + TruncDiv(Wrap64(bandwidth * (now - p.lastSent)), SECOND); sum >= p.datagram || sum < 0
    ensures Budget(p, bandwidth, now) >= p.datagram
  {
    assert p.datagram <= 0x3FFF_FFFF_FFFF_FFFF;
  }

  lemma WrappedSumIsNegative(budget: nat, product: nat)
    requires TWO_TO_THE_63 <= product && product + (budget + 1) * SECOND <= TWO_TO_THE_64
    ensures budget + TruncDiv(Wrap64(product), SECOND) < 0
  {
    assert Wrap64(product) == product - TWO_TO_THE_64;
    assert (TWO_TO_THE_64 - product) / SECOND >= budget + 1;
  }

  /** Beyond that it can stop fitting: at 125 MB/s, 147.573952590 s after the last transmission, the refill is 0 again. */
  lemma LongSilenceWraps()
    ensures var p, now := State(0, 1252, SECOND, MILLISECOND), SECOND + 147_573_952_590;
            && TimeUntilSend(p, 125_000_000) < now && Budget(p, 125_000_000, now) == 0
            && Budget(p, 125_000_000, now - SECOND) >= p.datagram
  {
  }

  /** Unless the minimum delay dominates, no earlier nanosecond would do. */
  lemma WakeUpIsEarliest(p: State, bandwidth: nat, now: Time)
    requires bandwidth > 0 && InRange(p, bandwidth) && p.lastSent != NO_TIME && p.budget < p.datagram
    requires CeilDiv((p.datagram - p.budget) * SECOND, bandwidth) >= p.minDelay
    requires p.lastSent <= now && GuardHolds(p, bandwidth, now)
    ensures Budget(p, bandwidth, now) >= p.datagram <==> now >= TimeUntilSend(p, bandwidth)
  {
    var wakeUp := TimeUntilSend(p, bandwidth);
    if now >= wakeUp {
      BudgetLasts(p, bandwidth, now);
    } else {
      WakeUpIsInRange(p, bandwidth);
      ProductsMonotone(now - p.lastSent, wakeUp - p.lastSent, bandwidth);
      RefillTime(p.datagram - p.budget, bandwidth, now - p.lastSent);
      assert bandwidth * (now - p.lastSent) >= 0;
    }
  }

  // ---------- The object ----------

  class Pacer {
    const minDelay: nat
    var budgetAtLastSent: nat
    var maxDatagramSize: nat
    var lastSentTime: Time

    ghost function Abs(): State
      reads this
    {
      State(budgetAtLastSent, maxDatagramSize, lastSentTime, minDelay)
    }

    constructor (initialPacketSize: nat, minDelay: nat)
      ensures Abs() == State(MAX_BURST_PACKETS * initialPacketSize, initialPacketSize, NO_TIME, minDelay)
    {
      budgetAtLastSent := MAX_BURST_PACKETS * initialPacketSize;
      maxDatagramSize := initialPacketSize;
      lastSentTime := NO_TIME;
      this.minDelay := minDelay;
    }

    method SentPacket(sendTime: Time, size: nat, bandwidth: nat)
      modifies `budgetAtLastSent, `lastSentTime
      ensures Abs() == Sent(old(Abs()), bandwidth, sendTime, size)
    {
      var budget := GetBudget(sendTime, bandwidth);
      if size > budget {
        budgetAtLastSent := 0;
      } else {
        budgetAtLastSent := budget - size;
      }
      lastSentTime := sendTime;
    }

    method GetBudget(now: Time, bandwidth: nat) returns (budget: nat)
      ensures budget == Budget(Abs(), bandwidth, now)
    {
      var burst := Max(TruncDiv(Wrap64((minDelay + MILLISECOND) * bandwidth), SECOND), MAX_BURST_PACKETS * maxDatagramSize);
      if lastSentTime == NO_TIME {
        return burst;
      }
      var b := budgetAtLastSent + TruncDiv(Wrap64(bandwidth * (now - lastSentTime)), SECOND);
      if b < 0 {
        b := 0x3FFF_FFFF_FFFF_FFFF;
      }
      budget := Min(burst, b);
    }

    method GetTimeUntilSend(bandwidth: nat) returns (t: Time)
      requires bandwidth > 0
      ensures t == TimeUntilSend(Abs(), bandwidth)
    {
      if budgetAtLastSent >= maxDatagramSize {
        return NO_TIME;
      }
      t := lastSentTime + Max(minDelay, CeilDiv((maxDatagramSize - budgetAtLastSent) * SECOND, bandwidth));
    }

    method SetMaxDatagramSize(s: nat)
      modifies `maxDatagramSize
      ensures maxDatagramSize == s
    {
      maxDatagramSize := s;
    }
  }
}
