/** Units and small helpers shared by the congestion controllers. */
module Common {

  /** Nanoseconds; 0 stands for Go's zero `time.Time`. */
  type Time = nat

  /** Bits per second. */
  type Bandwidth = nat

  datatype Option<+T> = None | Some(value: T)

  const NO_TIME: Time := 0
  const SECOND: nat := 1_000_000_000
  const MILLISECOND: nat := 1_000_000
  const INVALID_PACKET: int := -1
  const TWO_TO_THE_63: int := 0x8000_0000_0000_0000
  const TWO_TO_THE_64: nat := 0x1_0000_0000_0000_0000
  const INF_BANDWIDTH: Bandwidth := 0xFFFF_FFFF_FFFF_FFFF
  const INF_RTT: nat := 0x7FFF_FFFF_FFFF_FFFF

  function Min(a: int, b: int): int { if a < b then a else b }

  function Max(a: int, b: int): int { if a < b then b else a }

  /** Integer division as Go does it: rounding toward zero. */
  function TruncDiv(a: int, b: int): int
    requires b > 0
  {
    if a >= 0 then a / b else -((-a) / b)
  }

  /** It is symmetric around 0 and never further from 0 than the exact quotient. */
  lemma DivisionTruncates(a: int, b: int)
    requires a >= 0 && b > 0
    ensures TruncDiv(-a, b) == -TruncDiv(a, b)
    ensures 0 <= TruncDiv(a, b) * b <= a < TruncDiv(a, b) * b + b
  {
    assert a == a / b * b + a % b;
  }

  /** What an int64 holds after an operation whose exact result is x. */
  function Wrap64(x: int): (w: int)
    ensures -TWO_TO_THE_63 <= w < TWO_TO_THE_63
    ensures -TWO_TO_THE_63 <= x < TWO_TO_THE_63 ==> w == x
    ensures x >= 0 ==> w <= x
  {
    (x + TWO_TO_THE_63) % TWO_TO_THE_64 - TWO_TO_THE_63
  }

  /** It differs from the exact result by a multiple of 2^64. */
  lemma WrapIsCongruent(x: int)
    ensures (x - Wrap64(x)) % TWO_TO_THE_64 == 0
  {
  }

  /** `BandwidthFromDelta`: every operation is on uint64, so every product wraps at 2^64. */
  function BandwidthFromDelta(bytes: int, delta: int): Bandwidth
    requires delta > 0
  {
    bytes * SECOND % TWO_TO_THE_64 / delta * 8 % TWO_TO_THE_64
  }

  /** A rate computed from a delta is a whole number of bytes per second and is never the "infinite" rate. */
  lemma BandwidthIsWholeBytes(bytes: int, delta: int)
    requires delta > 0
    ensures BandwidthFromDelta(bytes, delta) % 8 == 0
    ensures BandwidthFromDelta(bytes, delta) < INF_BANDWIDTH
  {
    var q := bytes * SECOND % TWO_TO_THE_64 / delta;
    var m := q * 8 / TWO_TO_THE_64;
    assert BandwidthFromDelta(bytes, delta) == 8 * (q - m * (TWO_TO_THE_64 / 8));
  }
}
