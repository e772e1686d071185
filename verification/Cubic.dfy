/** The CUBIC window function of internal/congestion/cubic/cubic.go. */
module Cubic {
  import opened Common

  const SCALE: nat := 0x100_0000_0000
  const WINDOW_SCALE: nat := 410
  const DATAGRAM: nat := 1252
  const CUBE_FACTOR: nat := SCALE / WINDOW_SCALE / DATAGRAM
  const OFFSET_LIMIT: nat := 26_192
  const BETA: real := 0.7
  const BETA_LAST_MAX: real := 0.85

  datatype State = State(
    connections: nat,
    epoch: Time,
    lastMax: int,
    ackedBytes: nat,
    tcpWindow: int,
    origin: int,
    timeToOrigin: nat,
    lastTarget: int)

  ghost predicate Valid(s: State) { s.connections > 0 }

  function Reset(s: State): State { State(s.connections, NO_TIME, 0, 0, 0, 0, 0, 0) }

  /** The backoff factor of `n` emulated connections. */
  function Beta(n: nat): real
    requires n > 0
  {
    (n as real - 1.0 + BETA) / n as real
  }

  function BetaLastMax(n: nat): real
    requires n > 0
  {
    (n as real - 1.0 + BETA_LAST_MAX) / n as real
  }

  lemma BetaRange(n: nat)
    requires n > 0
    ensures BETA <= Beta(n) < 1.0
  {
    var x := n as real;
    assert Beta(n) == 1.0 - (1.0 - BETA) / x;
    assert 0.0 < (1.0 - BETA) / x <= 1.0 - BETA;
  }

  function Alpha(n: nat): (a: real)
    requires n > 0
    ensures a >= 0.0
  {
    BetaRange(n);
    var x, b := n as real, Beta(n);
    assert x * x >= 0.0;
    3.0 * x * x * (1.0 - b) / (1.0 + b)
  }

  function Cube(x: int): int { x * x * x }

  lemma CubeMonotone(x: nat, y: nat)
    requires x <= y
    ensures Cube(x) <= Cube(y)
  {
    assert x * x <= y * y;
    assert x * x * x <= y * y * x <= y * y * y;
  }

  /** The integer part of the cube root. */
  function CubeRoot(n: nat): (r: nat)
    ensures Cube(r) <= n < Cube(r + 1)
  {
    if n == 0 then 0
    else
      var r := CubeRoot(n - 1);
      if Cube(r + 1) <= n then
        assert Cube(r + 1) < Cube(r + 2);
        r + 1
      else r
  }

  // ---------- The curve ----------

  /** The distance from the origin window, `offset` units of 1/1024 s away from the origin point. The product is an int64:
      from OFFSET_LIMIT on, which is more than 25.57 s, it wraps around and the distance turns negative. */
  function Delta(offset: nat): int { Wrap64(Exact(offset)) / SCALE }

  /** The scaled product before it wraps. */
  function Exact(offset: nat): nat {
    assert Cube(offset) >= 0;
    WINDOW_SCALE * Cube(offset) * DATAGRAM
  }

  function Curve(origin: int, timeToOrigin: nat, elapsed: int): int {
    if elapsed > timeToOrigin then origin + Delta(elapsed - timeToOrigin)
    else origin - Delta(timeToOrigin - elapsed)
  }

  /** Units of 1/1024 s from the start of the epoch to the given moment. */
  function Elapsed(epoch: Time, moment: int): int {
    TruncDiv(TruncDiv(moment - epoch, 1000) * 1024, 1_000_000)
  }

  /** The window that the curve grants at a given moment of the epoch. */
  function Grant(s: State, moment: int): int {
    Curve(s.origin, s.timeToOrigin, Elapsed(s.epoch, moment))
  }

  /** `CongestionWindowAfterPacketLoss`: the state and the window after a loss. */
  function AfterLoss(s: State, window: nat): (State, int)
    requires Valid(s)
  {
    var lastMax := if window + DATAGRAM < s.lastMax then ReducedMax(s.connections, window) else window;
    (s.(lastMax := lastMax, epoch := NO_TIME), ReducedWindow(s.connections, window))
  }

  /** The window after a loss. */
  function ReducedWindow(n: nat, window: nat): int
    requires n > 0
  {
    (window as real * Beta(n)).Floor
  }

  /** The remembered maximum after a loss that came before the window was back at the old one. */
  function ReducedMax(n: nat, window: nat): int
    requires n > 0
  {
    (BetaLastMax(n) * window as real).Floor
  }

  /** The first ack after a loss fixes the origin point of the curve. */
  function StartEpoch(s: State, ackedBytes: nat, window: nat, now: Time): State {
    var s := s.(epoch := now, ackedBytes := ackedBytes, tcpWindow := window);
    if s.lastMax <= window then s.(timeToOrigin := 0, origin := window)
    else s.(timeToOrigin := CubeRoot(CUBE_FACTOR * (s.lastMax - window)), origin := s.lastMax)
  }

  /** The epoch that an ack is measured in: the one under way or a new one. */
  function EpochOf(s: State, ackedBytes: nat, window: nat, now: Time): State {
    if s.epoch == NO_TIME then StartEpoch(s, ackedBytes, window, now) else s
  }

  /** The growth of the TCP-friendly estimate for some acked bytes. */
  function TcpGrowth(n: nat, ackedBytes: nat, tcpWindow: int): (g: int)
    requires n > 0 && tcpWindow > 0
    ensures g >= 0
  {
    var top := ackedBytes as real * Alpha(n) * DATAGRAM as real;
    assert top / tcpWindow as real >= 0.0;
    (top / tcpWindow as real).Floor
  }

  ghost predicate Ready(s: State, window: nat) {
    Valid(s) && window > 0 && (s.epoch != NO_TIME ==> s.tcpWindow > 0)
  }

  /** `CongestionWindowAfterAck`: the state and the window after an ack. */
  function AfterAck(s: State, ackedBytes: nat, window: nat, delayMin: nat, now: Time): (State, int)
    requires Ready(s, window)
  {
    var s := EpochOf(s.(ackedBytes := s.ackedBytes + ackedBytes), ackedBytes, window, now);
    var target := Min(Grant(s, now + delayMin), window + s.ackedBytes / 2);
    var s := s.(tcpWindow := s.tcpWindow + TcpGrowth(s.connections, s.ackedBytes, s.tcpWindow), ackedBytes := 0, lastTarget := target);
    (s, Max(target, s.tcpWindow))
  }

  // ---------- Losses ----------

  /** Of `parts` equal parts of the window, w is what `left` parts amount to, rounded down. */
  ghost predicate IsShare(parts: real, left: real, window: nat, w: int) {
    parts * w as real <= left * window as real < parts * (w as real + 1.0)
  }

  lemma ScaleBoth(m: real, a: real, b: real)
    requires m >= 0.0 && a <= b
    ensures m * a <= m * b
  {
  }

  lemma ScaleBothStrictly(m: real, a: real, b: real)
    requires m > 0.0 && a < b
    ensures m * a < m * b
  {
  }

  lemma ShareIsFloor(parts: real, left: real, window: nat, f: real)
    requires parts > 0.0 && parts * f == left
    ensures IsShare(parts, left, window, (window as real * f).Floor)
  {
    var x := window as real;
    var y := x * f;
    var w := y.Floor as real;
    Regroup(parts, x, f);
    ScaleBoth(parts, w, y);
    ScaleBothStrictly(parts, y, w + 1.0);
  }

  lemma Regroup(a: real, b: real, c: real)
    ensures a * (b * c) == (a * c) * b
  {
  }

  /** With one connection, 0.7 of the window is left. */
  lemma OneConnectionKeeps70Percent(w: int, window: nat)
    ensures IsShare(1.0, 1.0 - 0.3, window, w) <==> 10 * w <= 7 * window < 10 * (w + 1)
  {
  }

  /** A loss leaves exactly the share that the emulated connections keep, 0.7 of the window for one, and a remembered maximum
      between that and the old window; a maximum that the window had not come back to is given up for a lower one (fast
      convergence). */
  lemma LossBacksOff(s: State, window: nat)
    requires Valid(s)
    ensures var (t, w) := AfterLoss(s, window);
            && IsShare(s.connections as real, s.connections as real - 0.3, window, w)
            && w <= t.lastMax <= window
            && (if window + DATAGRAM < s.lastMax
                then IsShare(s.connections as real, s.connections as real - 0.15, window, t.lastMax)
                else t.lastMax == window)
            && (window + DATAGRAM < s.lastMax ==> t.lastMax < s.lastMax)
            && t.epoch == NO_TIME
  {
    hide IsShare;
    hide ReducedWindow;
    hide ReducedMax;
    WindowShare(s.connections, window);
    MaxShare(s.connections, window);
    SharesAreOrdered(s.connections, window);
  }

  lemma WindowShare(n: nat, window: nat)
    requires n > 0
    ensures IsShare(n as real, n as real - 0.3, window, ReducedWindow(n, window))
  {
    var m, left, f := n as real, n as real - 0.3, Beta(n);
    assert m * f == left;
    ShareIsFloor(m, left, window, f);
    var w := ReducedWindow(n, window);
    assert w == (window as real * f).Floor;
    hide *;
    assert IsShare(m, left, window, w);
  }

  lemma MaxShare(n: nat, window: nat)
    requires n > 0
    ensures IsShare(n as real, n as real - 0.15, window, ReducedMax(n, window))
  {
    var m, left, f := n as real, n as real - 0.15, BetaLastMax(n);
    assert m * f == left;
    ShareIsFloor(m, left, window, f);
    var w := ReducedMax(n, window);
    assert w == (window as real * f).Floor;
    hide *;
    assert IsShare(m, left, window, w);
  }

  lemma SharesAreOrdered(n: nat, window: nat)
    requires n > 0
    ensures 0 <= ReducedWindow(n, window) <= ReducedMax(n, window) <= window
  {
    var x, f, g := window as real, Beta(n), BetaLastMax(n);
    BackoffRange(n);
    var v, w := ReducedWindow(n, window), ReducedMax(n, window);
    assert v == (x * f).Floor && w == (x * g).Floor && window == x.Floor;
    hide *;
    FloorsAreOrdered(x, f, g);
  }

  lemma FloorsAreOrdered(x: real, f: real, g: real)
    requires x >= 0.0 && 0.0 <= f <= g <= 1.0
    ensures 0 <= (x * f).Floor <= (x * g).Floor <= x.Floor
  {
    ScaleBoth(x, 0.0, f);
    ScaleBoth(x, f, g);
    ScaleBoth(x, g, 1.0);
  }

  lemma BackoffRange(n: nat)
    requires n > 0
    ensures 0.0 <= Beta(n) <= BetaLastMax(n) <= 1.0
  {
    assert BetaLastMax(n) == 1.0 - (1.0 - BETA_LAST_MAX) / n as real;
    assert Beta(n) == 1.0 - (1.0 - BETA) / n as real;
  }

  /** The epoch after a loss climbs back exactly to the remembered maximum at its origin point, and never beyond before,
      as long as the product does not wrap. */
  lemma CurveReturnsToMaximum(s: State, ackedBytes: nat, window: nat, now: Time, elapsed: int)
    requires window <= s.lastMax
    ensures var t := StartEpoch(s, ackedBytes, window, now);
            && Curve(t.origin, t.timeToOrigin, t.timeToOrigin) == s.lastMax
            && (0 <= t.timeToOrigin - elapsed < OFFSET_LIMIT ==> Curve(t.origin, t.timeToOrigin, elapsed) <= s.lastMax)
  {
    var t := StartEpoch(s, ackedBytes, window, now);
    assert Delta(0) == 0;
    if 0 <= t.timeToOrigin - elapsed < OFFSET_LIMIT {
      CurveMonotone(t.origin, t.timeToOrigin, elapsed, t.timeToOrigin);
    }
  }

  // ---------- Acks ----------

  /** The window after an ack is the curve's grant, but at most half the acked bytes above the old window, or the TCP-friendly
      estimate if that is larger. */
  lemma AckFollowsGrant(s: State, ackedBytes: nat, window: nat, delayMin: nat, now: Time)
    requires Ready(s, window)
    ensures var (t, w) := AfterAck(s, ackedBytes, window, delayMin, now);
            var grant := Grant(EpochOf(s, ackedBytes, window, now), now + delayMin);
            var estimate := if s.epoch == NO_TIME then window else s.tcpWindow;
            var pending := if s.epoch == NO_TIME then ackedBytes else s.ackedBytes + ackedBytes;
            && t.ackedBytes == 0 && t.connections == s.connections
            && w == Max(t.tcpWindow, Min(grant, window + pending / 2))
            && t.tcpWindow == estimate + TcpGrowth(s.connections, pending, estimate)
  {
    hide Curve;
    hide Elapsed;
    hide TcpGrowth;
    hide CubeRoot;
  }

  /** The TCP-friendly estimate of one connection gains 9/17 of a datagram for every window's worth of acked bytes. */
  lemma TcpGrowthIsShare(ackedBytes: nat, tcpWindow: nat)
    requires tcpWindow > 0
    ensures var g := TcpGrowth(1, ackedBytes, tcpWindow);
            17 * g * tcpWindow <= 9 * DATAGRAM * ackedBytes < 17 * (g + 1) * tcpWindow
  {
    assert Beta(1) == 0.7 && Alpha(1) == 9.0 / 17.0;
    var top, all := ackedBytes as real * Alpha(1) * DATAGRAM as real, 9 * DATAGRAM * ackedBytes;
    assert 17.0 * top == all as real;
    var g := TcpGrowth(1, ackedBytes, tcpWindow);
    assert g == (top / tcpWindow as real).Floor;
    hide *;
    QuotientShare(top, tcpWindow, g);
    ShareOfSeventeenths(top, all, g * tcpWindow, (g + 1) * tcpWindow);
    assert 17 * (g * tcpWindow) == 17 * g * tcpWindow && 17 * ((g + 1) * tcpWindow) == 17 * (g + 1) * tcpWindow;
  }

  lemma ShareOfSeventeenths(top: real, all: int, low: int, high: int)
    requires 17.0 * top == all as real && low as real <= top < high as real
    ensures 17 * low <= all < 17 * high
  {
  }

  lemma QuotientShare(top: real, w: nat, g: int)
    requires w > 0 && g == (top / w as real).Floor
    ensures (g * w) as real <= top < ((g + 1) * w) as real
  {
    Cancel(top, w as real);
    ProductBounds(top, top / w as real, w, g, g + 1);
  }

  lemma ProductBounds(top: real, q: real, w: nat, low: int, high: int)
    requires w > 0 && q * w as real == top && low as real <= q < high as real
    ensures (low * w) as real <= top < (high * w) as real
  {
    ProductAsReal(low, w);
    ProductAsReal(high, w);
    ScaleBoth(w as real, low as real, q);
    ScaleBothStrictly(w as real, q, high as real);
  }

  lemma ProductAsReal(a: int, b: int)
    ensures (a * b) as real == a as real * b as real
  {
  }

  lemma Cancel(a: real, b: real)
    requires b > 0.0
    ensures a / b * b == a
  {
  }

  // ---------- The curve rises where its product does not wrap ----------

  lemma ExactMonotone(x: nat, y: nat)
    requires x <= y
    ensures Exact(x) <= Exact(y)
  {
    CubeMonotone(x, y);
  }

  /** The product fits an int64 exactly below the limit. */
  lemma LimitIsExact(offset: nat)
    ensures Exact(offset) < TWO_TO_THE_63 <==> offset < OFFSET_LIMIT
  {
    assert Exact(26_191) < TWO_TO_THE_63 <= Exact(26_192);
    if offset < OFFSET_LIMIT {
      ExactMonotone(offset, 26_191);
    } else {
      ExactMonotone(26_192, offset);
    }
  }

  lemma DeltaMonotone(x: nat, y: nat)
    requires x <= y < OFFSET_LIMIT
    ensures 0 <= Delta(x) <= Delta(y)
  {
    LimitIsExact(x);
    LimitIsExact(y);
    ExactMonotone(x, y);
  }

  /** Near the origin point the curve is cubic: on both sides its distance from the origin window is 410 * 1252 / 2^40 times
      the cube of the offset, rounded down. */
  lemma CurveIsCubic(origin: int, timeToOrigin: nat, offset: nat)
    requires offset < OFFSET_LIMIT
    ensures var above := Curve(origin, timeToOrigin, timeToOrigin + offset) - origin;
            var below := origin - Curve(origin, timeToOrigin, timeToOrigin - offset);
            && above == below
            && SCALE * above <= WINDOW_SCALE * DATAGRAM * Cube(offset) < SCALE * (above + 1)
  {
    LimitIsExact(offset);
    if offset == 0 {
      assert Delta(0) == 0;
    }
    var x := Exact(offset);
    assert x == WINDOW_SCALE * DATAGRAM * Cube(offset) by {
      Reorder(WINDOW_SCALE, Cube(offset), DATAGRAM);
    }
    assert Delta(offset) == x / SCALE;
  }

  lemma Reorder(a: int, b: int, c: int)
    ensures a * b * c == a * c * b
  {
  }

  /** The curve rises on both sides of its origin point, up to where the product wraps. */
  lemma CurveMonotone(origin: int, timeToOrigin: nat, e: int, f: int)
    requires timeToOrigin - OFFSET_LIMIT < e <= f < timeToOrigin + OFFSET_LIMIT
    ensures Curve(origin, timeToOrigin, e) <= Curve(origin, timeToOrigin, f)
  {
    hide Delta;
    if f <= timeToOrigin {
      DeltaMonotone(timeToOrigin - f, timeToOrigin - e);
    } else if e > timeToOrigin {
      DeltaMonotone(e - timeToOrigin, f - timeToOrigin);
    } else {
      DeltaMonotone(0, timeToOrigin - e);
      DeltaMonotone(0, f - timeToOrigin);
    }
  }

  /** And there it falls by more than 16 million bytes at once. */
  lemma CurveFallsAtLimit(origin: int, timeToOrigin: nat)
    ensures Curve(origin, timeToOrigin, timeToOrigin + OFFSET_LIMIT)
          < Curve(origin, timeToOrigin, timeToOrigin + OFFSET_LIMIT - 1) - 16_000_000
  {
    assert Exact(26_191) == 9_222_410_033_407_301_720 && Exact(26_192) == 9_223_466_437_762_908_160;
  }

  lemma ElapsedMonotone(epoch: Time, a: int, b: int)
    requires epoch <= a <= b
    ensures 0 <= Elapsed(epoch, a) <= Elapsed(epoch, b)
  {
    var x, y := (a - epoch) / 1000, (b - epoch) / 1000;
    assert 0 <= x <= y;
    assert Elapsed(epoch, a) == x * 1024 / 1_000_000 && Elapsed(epoch, b) == y * 1024 / 1_000_000;
  }

  /** The moment is less than OFFSET_LIMIT away from the origin point, on either side. */
  predicate NearOrigin(s: State, moment: int) {
    s.timeToOrigin - OFFSET_LIMIT < Elapsed(s.epoch, moment) < s.timeToOrigin + OFFSET_LIMIT
  }

  lemma GrantMonotone(s: State, a: int, b: int)
    requires s.epoch <= a <= b && NearOrigin(s, a) && NearOrigin(s, b)
    ensures Grant(s, a) <= Grant(s, b)
  {
    ElapsedMonotone(s.epoch, a, b);
    CurveMonotone(s.origin, s.timeToOrigin, Elapsed(s.epoch, a), Elapsed(s.epoch, b));
  }

  lemma RoundedDownTwice(cube: int, gap: nat)
    requires cube <= CUBE_FACTOR * gap
    ensures WINDOW_SCALE * cube * DATAGRAM / SCALE <= gap
  {
    assert CUBE_FACTOR == 2_141_961;
    assert WINDOW_SCALE * cube * DATAGRAM <= WINDOW_SCALE * DATAGRAM * 2_141_961 * gap;
  }

  /** Rounding the cube root and the cube factor down keeps the start of the curve at or above the window, until the
      product wraps beyond the origin point; a wrap before that point only raises the curve. */
  lemma CurveStartsAtWindow(s: State, ackedBytes: nat, window: nat, now: Time, moment: int)
    requires now <= moment
    requires Elapsed(now, moment) < StartEpoch(s, ackedBytes, window, now).timeToOrigin + OFFSET_LIMIT
    ensures Grant(StartEpoch(s, ackedBytes, window, now), moment) >= window
  {
    hide CubeRoot;
    var t := StartEpoch(s, ackedBytes, window, now);
    var elapsed := Elapsed(now, moment);
    ElapsedMonotone(now, now, moment);
    if elapsed > t.timeToOrigin {
      DeltaMonotone(0, elapsed - t.timeToOrigin);
    } else {
      ExactMonotone(t.timeToOrigin - elapsed, t.timeToOrigin);
      if s.lastMax > window {
        RoundedDownTwice(Cube(t.timeToOrigin), s.lastMax - window);
      }
    }
  }

  /** An epoch stays near its origin point for at least 25.5 s if it starts at most 8 MB below the remembered maximum. */
  lemma ShortEpochsAreNear(s: State, ackedBytes: nat, window: nat, now: Time, moment: int)
    requires s.lastMax - window <= 8_000_000 && now <= moment <= now + 25_500 * MILLISECOND
    ensures NearOrigin(StartEpoch(s, ackedBytes, window, now), moment)
  {
    var t := StartEpoch(s, ackedBytes, window, now);
    ElapsedMonotone(now, now, moment);
    ElapsedMonotone(now, moment, now + 25_500 * MILLISECOND);
    assert Elapsed(now, now + 25_500 * MILLISECOND) == 26_112;
    if t.timeToOrigin >= OFFSET_LIMIT {
      assert CUBE_FACTOR == 2_141_961;
      CubeMonotone(OFFSET_LIMIT, t.timeToOrigin);
    }
  }

  // ---------- Acks never shrink the window ----------

  /** In an epoch the window never exceeds what the curve (at the latest moment seen) or the TCP estimate has granted. */
  ghost predicate Granted(s: State, window: nat, moment: int) {
    s.epoch != NO_TIME ==>
      && s.epoch <= moment && NearOrigin(s, moment)
      && window <= Max(Grant(s, moment), s.tcpWindow)
  }

  /** Within an epoch, and across the start of one, an ack never shrinks the window, provided that the event time plus
      the minimum RTT does not run backwards and stays near the origin point. */
  lemma AckNeverShrinks(s: State, ackedBytes: nat, window: nat, delayMin: nat, now: Time, moment: int)
    requires Ready(s, window) && Granted(s, window, moment)
    requires now > NO_TIME && (s.epoch != NO_TIME ==> moment <= now + delayMin)
    requires NearOrigin(EpochOf(s, ackedBytes, window, now), now + delayMin)
    ensures
      var (t, w) := AfterAck(s, ackedBytes, window, delayMin, now);
      && w >= window && w >= t.tcpWindow
      && t.tcpWindow >= (if s.epoch == NO_TIME then window else s.tcpWindow)
      && Ready(t, w) && t.epoch != NO_TIME
      && forall cap: nat :: Granted(t, Min(cap, w), now + delayMin)
  {
    hide Curve;
    hide Elapsed;
    hide TcpGrowth;
    hide CubeRoot;
    if s.epoch != NO_TIME {
      GrantMonotone(s, moment, now + delayMin);
    }
  }

  /** The TCP-friendly window that some further acked bytes lead to. */
  function TcpEstimate(s: State, ackedBytes: nat): int
    requires Valid(s) && s.tcpWindow > 0
  {
    s.tcpWindow + TcpGrowth(s.connections, s.ackedBytes + ackedBytes, s.tcpWindow)
  }

  /** An epoch is under way, and neither the curve at that moment nor the TCP estimate grants the window any more. */
  predicate Outgrown(s: State, ackedBytes: nat, window: nat, moment: int)
    requires Ready(s, window)
  {
    s.epoch != NO_TIME && Grant(s, moment) < window && TcpEstimate(s, ackedBytes) < window
  }

  /** Whatever the clock does and wherever the product wraps, an ack shrinks the window exactly when the window is outgrown
      before the call. */
  lemma AckShrinksExactlyWhenOutgrown(s: State, ackedBytes: nat, window: nat, delayMin: nat, now: Time)
    requires Ready(s, window) && now > NO_TIME
    ensures AfterAck(s, ackedBytes, window, delayMin, now).1 < window <==> Outgrown(s, ackedBytes, window, now + delayMin)
  {
    hide Curve;
    hide Elapsed;
    hide TcpGrowth;
    hide CubeRoot;
  }

  // ---------- The object ----------

  class CubicWindow {
    var numConnections: nat
    var epoch: Time
    var lastMaxCongestionWindow: int
    var ackedBytesCount: nat
    var estimatedTCPcongestionWindow: int
    var originPointCongestionWindow: int
    var timeToOriginPoint: nat
    var lastTargetCongestionWindow: int

    ghost function Abs(): State
      reads this
    {
      State(numConnections, epoch, lastMaxCongestionWindow, ackedBytesCount, estimatedTCPcongestionWindow,
            originPointCongestionWindow, timeToOriginPoint, lastTargetCongestionWindow)
    }

    constructor ()
      ensures Abs() == Reset(State(1, NO_TIME, 0, 0, 0, 0, 0, 0))
    {
      numConnections, epoch, lastMaxCongestionWindow, ackedBytesCount := 1, NO_TIME, 0, 0;
      estimatedTCPcongestionWindow, originPointCongestionWindow := 0, 0;
      timeToOriginPoint, lastTargetCongestionWindow := 0, 0;
    }

    method DoReset()
      modifies this
      ensures Abs() == Reset(old(Abs()))
    {
      epoch := NO_TIME;
      lastMaxCongestionWindow := 0;
      ackedBytesCount := 0;
      estimatedTCPcongestionWindow := 0;
      originPointCongestionWindow := 0;
      timeToOriginPoint := 0;
      lastTargetCongestionWindow := 0;
    }

    method OnApplicationLimited()
      modifies `epoch
      ensures Abs() == old(Abs()).(epoch := NO_TIME)
    {
      epoch := NO_TIME;
    }

    method CongestionWindowAfterPacketLoss(currentCongestionWindow: nat) returns (window: int)
      requires Valid(Abs())
      modifies `epoch, `lastMaxCongestionWindow
      ensures var (s, w) := AfterLoss(old(Abs()), currentCongestionWindow); Abs() == s && window == w
    {
      if currentCongestionWindow + DATAGRAM < lastMaxCongestionWindow {
        lastMaxCongestionWindow := (BetaLastMax(numConnections) * currentCongestionWindow as real).Floor;
      } else {
        lastMaxCongestionWindow := currentCongestionWindow;
      }
      epoch := NO_TIME;
      window := (currentCongestionWindow as real * Beta(numConnections)).Floor;
    }

    /** The part of `CongestionWindowAfterAck` that runs on the first ack after a loss. */
    method BeginEpoch(ackedBytes: nat, currentCongestionWindow: nat, eventTime: Time)
      modifies this
      ensures Abs() == StartEpoch(old(Abs()), ackedBytes, currentCongestionWindow, eventTime)
    {
      epoch := eventTime;
      ackedBytesCount := ackedBytes;
      estimatedTCPcongestionWindow := currentCongestionWindow;
      if lastMaxCongestionWindow <= currentCongestionWindow {
        timeToOriginPoint := 0;
        originPointCongestionWindow := currentCongestionWindow;
      } else {
        timeToOriginPoint := CubeRoot(CUBE_FACTOR * (lastMaxCongestionWindow - currentCongestionWindow));
        originPointCongestionWindow := lastMaxCongestionWindow;
      }
    }

    method CongestionWindowAfterAck(ackedBytes: nat, currentCongestionWindow: nat, delayMin: nat, eventTime: Time)
      returns (window: int)
      requires Ready(Abs(), currentCongestionWindow)
      modifies this
      ensures
        var (s, w) := AfterAck(old(Abs()), ackedBytes, currentCongestionWindow, delayMin, eventTime);
        Abs() == s && window == w
    {
      hide CubeRoot;
      hide Delta;
      hide Elapsed;
      hide TcpGrowth;
      ackedBytesCount := ackedBytesCount + ackedBytes;
      if epoch == NO_TIME {
        BeginEpoch(ackedBytes, currentCongestionWindow, eventTime);
      }
      ghost var s := Abs();
      assert s.tcpWindow > 0;
      hide StartEpoch;
      var elapsedTime := Elapsed(epoch, eventTime + delayMin);
      var offset := timeToOriginPoint - elapsedTime;
      if offset < 0 {
        offset := -offset;
      }
      var deltaCongestionWindow := Delta(offset);
      var target;
      if elapsedTime > timeToOriginPoint {
        target := originPointCongestionWindow + deltaCongestionWindow;
      } else {
        target := originPointCongestionWindow - deltaCongestionWindow;
      }
      target := Min(target, currentCongestionWindow + ackedBytesCount / 2);
      assert target == Min(Grant(s, eventTime + delayMin), currentCongestionWindow + s.ackedBytes / 2);
      estimatedTCPcongestionWindow := estimatedTCPcongestionWindow
        + TcpGrowth(numConnections, ackedBytesCount, estimatedTCPcongestionWindow);
      ackedBytesCount := 0;
      lastTargetCongestionWindow := target;
      if target < estimatedTCPcongestionWindow {
        target := estimatedTCPcongestionWindow;
      }
      window := target;
    }

    method SetNumConnections(n: nat)
      modifies `numConnections
      ensures Abs() == old(Abs()).(connections := n)
    {
      numConnections := n;
    }
  }
}
