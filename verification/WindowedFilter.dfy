/** Kathleen Nichols' windowed filter, internal/congestion/bbr/windowed_filter.go. */
module WindowedFilters {

  datatype Entry<+V> = Entry(sample: V, time: int)

  datatype Estimates<+V> = Estimates(best: Entry<V>, second: Entry<V>, third: Entry<V>)

  function Same<V>(e: Entry<V>): Estimates<V> { Estimates(e, e, e) }

  /** A sample that is not a new best replaces the lower estimates that it reaches. */
  function Recorded<V>(rank: V -> int, e: Estimates<V>, latest: Entry<V>): Estimates<V> {
    if rank(latest.sample) >= rank(e.second.sample) then Estimates(e.best, latest, latest)
    else if rank(latest.sample) >= rank(e.third.sample) then e.(third := latest)
    else e
  }

  /** An outdated best is succeeded by the second or third; lower estimates that lag behind are renewed. */
  function Expired<V>(rank: V -> int, window: nat, e: Estimates<V>, latest: Entry<V>): Estimates<V> {
    var now := latest.time;
    if now - e.best.time > window then
      if now - e.second.time > window then Estimates(e.third, latest, latest)
      else Estimates(e.second, e.third, latest)
    else if rank(e.second.sample) == rank(e.best.sample) && now - e.second.time > window / 4 then
      Estimates(e.best, latest, latest)
    else if rank(e.third.sample) == rank(e.second.sample) && now - e.third.time > window / 2 then
      e.(third := latest)
    else e
  }

  /** One `Update`. The comparator is given by a rank: a beats b when rank(a) > rank(b), and the zero value has rank 0. */
  function Updated<V>(rank: V -> int, window: nat, e: Estimates<V>, sample: V, now: int): Estimates<V> {
    var latest := Entry(sample, now);
    if rank(e.best.sample) == 0 || rank(sample) >= rank(e.best.sample) || now - e.third.time > window then Same(latest)
    else Expired(rank, window, Recorded(rank, e, latest), latest)
  }

  /** The estimates after a whole stream of samples, starting from a cleared filter. */
  ghost function Replay<V>(rank: V -> int, window: nat, zero: V, stream: seq<Entry<V>>): Estimates<V> {
    if stream == [] then Same(Entry(zero, 0))
    else
      var n := |stream| - 1;
      Updated(rank, window, Replay(rank, window, zero, stream[..n]), stream[n].sample, stream[n].time)
  }

  lemma ReplayOneMore<V>(rank: V -> int, window: nat, zero: V, stream: seq<Entry<V>>, e: Entry<V>)
    ensures Replay(rank, window, zero, stream + [e])
         == Updated(rank, window, Replay(rank, window, zero, stream), e.sample, e.time)
  {
    assert (stream + [e])[..|stream|] == stream;
  }

  ghost predicate InOrder<V>(stream: seq<Entry<V>>) {
    forall i, j :: 0 <= i <= j < |stream| ==> stream[i].time <= stream[j].time
  }

  ghost predicate Nonnegative<V>(rank: V -> int, stream: seq<Entry<V>>) {
    forall m :: 0 <= m < |stream| ==> rank(stream[m].sample) >= 0
  }

  /** No sample from position `from` on outranks x. */
  ghost predicate Tops<V>(rank: V -> int, stream: seq<Entry<V>>, from: nat, x: V) {
    forall m :: from <= m < |stream| ==> rank(stream[m].sample) <= rank(x)
  }

  /** Where the estimates stand in the stream: best, second and third were recorded at i, j and k; the best tops everything since `start`. */
  ghost predicate Located<V>(rank: V -> int, stream: seq<Entry<V>>, e: Estimates<V>, start: nat, i: nat, j: nat, k: nat) {
    && start <= i <= j <= k < |stream|
    && e == Estimates(stream[i], stream[j], stream[k])
    && Tops(rank, stream, start, e.best.sample)
    && Tops(rank, stream, j, e.second.sample)
    && Tops(rank, stream, k, e.third.sample)
  }

  lemma RecordedIsLocated<V>(rank: V -> int, past: seq<Entry<V>>, e: Estimates<V>, latest: Entry<V>,
                             start: nat, i: nat, j: nat, k: nat)
    returns (j': nat, k': nat)
    requires Located(rank, past, e, start, i, j, k) && rank(latest.sample) < rank(e.best.sample)
    ensures Located(rank, past + [latest], Recorded(rank, e, latest), start, i, j', k')
  {
    var n := |past|;
    j' := if rank(latest.sample) >= rank(e.second.sample) then n else j;
    k' := if rank(latest.sample) >= rank(e.third.sample) then n else k;
    assert rank(e.third.sample) <= rank(e.second.sample);
  }

  lemma ExpiredIsLocated<V>(rank: V -> int, window: nat, stream: seq<Entry<V>>, e: Estimates<V>,
                            start: nat, i: nat, j: nat, k: nat)
    returns (start': nat, i': nat, j': nat, k': nat)
    requires Located(rank, stream, e, start, i, j, k)
    requires var now := stream[|stream| - 1].time; now - e.third.time <= window
    ensures Located(rank, stream, Expired(rank, window, e, stream[|stream| - 1]), start', i', j', k')
    ensures stream[|stream| - 1].time - stream[i'].time <= window
    ensures stream[|stream| - 1].time - stream[i].time <= window ==> start' == start
  {
    start', i', j', k' := start, i, j, k;
    var n := |stream| - 1;
    var latest := stream[n];
    if latest.time - e.best.time > window {
      if latest.time - e.second.time > window {
        start', i', j', k' := k, k, n, n;
      } else {
        start', i', j', k' := j, j, k, n;
      }
    } else if rank(e.second.sample) == rank(e.best.sample) && latest.time - e.second.time > window / 4 {
      j', k' := n, n;
    } else if rank(e.third.sample) == rank(e.second.sample) && latest.time - e.third.time > window / 2 {
      k' := n;
    }
  }

  /** The best was recorded at i, at most one window ago, and tops everything since `start`, which is the
      beginning of the stream as long as the stream fits in one window. */
  ghost predicate Current<V>(rank: V -> int, window: nat, stream: seq<Entry<V>>, start: nat, i: nat)
    requires i < |stream|
  {
    var now := stream[|stream| - 1].time;
    && now - stream[i].time <= window
    && Tops(rank, stream, start, stream[i].sample)
    && (Nonnegative(rank, stream) && now - stream[0].time <= window ==> start == 0)
  }

  lemma UpdatedIsLocated<V>(rank: V -> int, window: nat, past: seq<Entry<V>>, e: Estimates<V>, latest: Entry<V>,
                            start: nat, i: nat, j: nat, k: nat)
    returns (start': nat, i': nat, j': nat, k': nat)
    requires Located(rank, past, e, start, i, j, k) && Current(rank, window, past, start, i)
    requires InOrder(past + [latest])
    ensures Located(rank, past + [latest], Updated(rank, window, e, latest.sample, latest.time), start', i', j', k')
    ensures Current(rank, window, past + [latest], start', i')
  {
    var n, stream := |past|, past + [latest];
    assert past[n - 1].time <= latest.time by {
      assert stream[n - 1].time <= stream[n].time;
    }
    assert Nonnegative(rank, stream) ==> Nonnegative(rank, past) && rank(latest.sample) >= 0 by {
      assert stream[n] == latest && forall m :: 0 <= m < n ==> stream[m] == past[m];
    }
    if rank(latest.sample) >= rank(e.best.sample) {
      start', i', j', k' := start, n, n, n;
    } else if rank(e.best.sample) == 0 || latest.time - e.third.time > window {
      start', i', j', k' := n, n, n, n;
      assert stream[0].time <= stream[k].time;
    } else {
      j', k' := RecordedIsLocated(rank, past, e, latest, start, i, j, k);
      assert stream[0].time <= stream[i].time;
      start', i', j', k' := ExpiredIsLocated(rank, window, stream, Recorded(rank, e, latest), start, i, j', k');
    }
  }

  lemma {:induction false} ReplayIsLocated<V>(rank: V -> int, window: nat, zero: V, stream: seq<Entry<V>>)
    returns (start: nat, i: nat, j: nat, k: nat)
    requires stream != [] && InOrder(stream) && rank(zero) == 0
    ensures Located(rank, stream, Replay(rank, window, zero, stream), start, i, j, k)
    ensures Current(rank, window, stream, start, i)
  {
    hide Located;
    hide Current;
    hide Updated;
    var n := |stream| - 1;
    var past, latest := stream[..n], stream[n];
    var e := Replay(rank, window, zero, past);
    if n == 0 {
      FirstIsLocated(rank, window, zero, latest);
      assert stream == [latest];
      return 0, 0, 0, 0;
    }
    start, i, j, k := ReplayIsLocated(rank, window, zero, past);
    assert stream == past + [latest];
    start, i, j, k := UpdatedIsLocated(rank, window, past, e, latest, start, i, j, k);
  }

  // ---------- What an update must not lose ----------

  /** The time is at most one window before the latest one. */
  ghost predicate IsFresh<V>(window: nat, e: Entry<V>, now: int) { now - e.time <= window }

  /** No estimate is given up early: the new best is at least the latest sample and every old estimate that is still
      fresh. As long as the best is kept, the second falls only when it was no better than the best and a quarter of a
      window old, and the third only then or when it was no better than the second and half a window old. When the best
      has expired, second and third move up. */
  ghost predicate KeepsFresh<V>(rank: V -> int, window: nat, e: Estimates<V>, latest: Entry<V>, f: Estimates<V>) {
    var now := latest.time;
    && rank(f.best.sample) >= rank(latest.sample) && rank(f.third.sample) >= rank(latest.sample)
    && f.best.time >= e.best.time && (IsFresh(window, e.best, now) ==> f.best == e.best || f.best == latest)
    && (IsFresh(window, e.best, now) ==> rank(f.best.sample) >= rank(e.best.sample))
    && (IsFresh(window, e.second, now) ==> rank(f.best.sample) >= rank(e.second.sample))
    && (IsFresh(window, e.third, now) ==> rank(f.best.sample) >= rank(e.third.sample))
    && (IsFresh(window, e.best, now) ==>
          || rank(f.second.sample) >= rank(e.second.sample)
          || (rank(e.second.sample) == rank(e.best.sample) && !IsFresh(window / 4, e.second, now)))
    && (IsFresh(window, e.best, now) ==>
          || rank(f.third.sample) >= rank(e.third.sample)
          || (rank(e.second.sample) == rank(e.best.sample) && !IsFresh(window / 4, e.second, now))
          || (rank(e.third.sample) == rank(e.second.sample) && !IsFresh(window / 2, e.third, now)))
    && (!IsFresh(window, e.best, now) && IsFresh(window, e.second, now) ==> rank(f.second.sample) >= rank(e.third.sample))
  }

  /** No estimate is kept too long: a best that is kept is fresh, a second or third that adds nothing to the one before it
      is younger than a quarter or half a window, and when the best has expired the third is the latest sample. */
  ghost predicate RenewsStale<V>(rank: V -> int, window: nat, e: Estimates<V>, latest: Entry<V>, f: Estimates<V>) {
    var now := latest.time;
    && IsFresh(window, f.best, now)
    && (IsFresh(window, e.best, now) && rank(f.second.sample) == rank(f.best.sample) ==> IsFresh(window / 4, f.second, now))
    && (IsFresh(window, e.best, now) && rank(f.third.sample) == rank(f.second.sample) ==> IsFresh(window / 2, f.third, now))
    && (!IsFresh(window, e.best, now) ==> f.third == latest)
  }

  /** What an update does to estimates that stand in a stream. */
  lemma UpdateKeepsFresh<V>(rank: V -> int, window: nat, past: seq<Entry<V>>, e: Estimates<V>, latest: Entry<V>,
                            start: nat, i: nat, j: nat, k: nat)
    requires Located(rank, past, e, start, i, j, k) && InOrder(past + [latest])
    requires rank(latest.sample) >= 0
    ensures var f := Updated(rank, window, e, latest.sample, latest.time);
            KeepsFresh(rank, window, e, latest, f) && RenewsStale(rank, window, e, latest, f)
  {
    var stream := past + [latest];
    assert stream[i].time <= stream[j].time <= stream[k].time <= stream[|past|].time;
  }

  /** Where the suffix of the best begins after an update: where it began before, as long as the best is fresh, otherwise
      no later than the recording of the freshest estimate that moves up. */
  lemma SuffixReachesBack<V>(rank: V -> int, window: nat, past: seq<Entry<V>>, e: Estimates<V>, latest: Entry<V>,
                             start: nat, i: nat, j: nat, k: nat)
    requires Located(rank, past, e, start, i, j, k) && InOrder(past + [latest])
    requires rank(e.best.sample) > 0 && IsFresh(window, e.third, latest.time)
    ensures var from := if IsFresh(window, e.best, latest.time) then start
                        else if IsFresh(window, e.second, latest.time) then j else k;
            Tops(rank, past + [latest], from, Updated(rank, window, e, latest.sample, latest.time).best.sample)
  {
  }

  lemma FirstIsLocated<V>(rank: V -> int, window: nat, zero: V, first: Entry<V>)
    requires rank(zero) == 0
    ensures Located(rank, [first], Updated(rank, window, Same(Entry(zero, 0)), first.sample, first.time), 0, 0, 0, 0)
    ensures Current(rank, window, [first], 0, 0)
  {
  }

  /** On every stream, every update keeps what is fresh and renews what is stale, and the suffix of the best reaches back
      as far as the estimates before the update allow. */
  lemma UpdatesAreFaithful<V>(rank: V -> int, window: nat, zero: V, past: seq<Entry<V>>, latest: Entry<V>)
    returns (start: nat, i: nat, j: nat, k: nat)
    requires past != [] && InOrder(past + [latest]) && Nonnegative(rank, past + [latest]) && rank(zero) == 0
    ensures var e, f := Replay(rank, window, zero, past), Replay(rank, window, zero, past + [latest]);
            && KeepsFresh(rank, window, e, latest, f) && RenewsStale(rank, window, e, latest, f)
            && Located(rank, past, e, start, i, j, k) && Current(rank, window, past, start, i)
            && (rank(e.best.sample) > 0 && IsFresh(window, e.third, latest.time) ==>
                  Tops(rank, past + [latest],
                       if IsFresh(window, e.best, latest.time) then start
                       else if IsFresh(window, e.second, latest.time) then j else k,
                       f.best.sample))
  {
    hide KeepsFresh;
    hide RenewsStale;
    hide Updated;
    hide Located;
    hide Current;
    var stream, n := past + [latest], |past|;
    assert stream[..n] == past && stream[n] == latest;
    assert InOrder(past) by {
      assert forall m :: 0 <= m < n ==> stream[m] == past[m];
    }
    var e := Replay(rank, window, zero, past);
    start, i, j, k := ReplayIsLocated(rank, window, zero, past);
    UpdateKeepsFresh(rank, window, past, e, latest, start, i, j, k);
    if rank(e.best.sample) > 0 && IsFresh(window, e.third, latest.time) {
      SuffixReachesBack(rank, window, past, e, latest, start, i, j, k);
    }
  }

  /** `GetBest` is the exact maximum of a suffix of the stream that contains the best's own recording, at most one
      window ago. The three estimates are ordered by value and by time, and each tops every sample since its recording.
      The latest update kept every estimate that was fresh and renewed those that were stale. */
  lemma BestIsSuffixMaximum<V>(rank: V -> int, window: nat, zero: V, stream: seq<Entry<V>>)
    requires stream != [] && InOrder(stream) && rank(zero) == 0
    ensures
      var e := Replay(rank, window, zero, stream);
      && (exists start: nat, i: nat, j: nat, k: nat ::
            Located(rank, stream, e, start, i, j, k) && Current(rank, window, stream, start, i))
      && rank(e.best.sample) >= rank(e.second.sample) >= rank(e.third.sample)
      && e.best.time <= e.second.time <= e.third.time <= stream[|stream| - 1].time
    ensures
      var n := |stream| - 1;
      var e := Replay(rank, window, zero, stream[..n]);
      n > 0 && Nonnegative(rank, stream) ==>
        && KeepsFresh(rank, window, e, stream[n], Replay(rank, window, zero, stream))
        && RenewsStale(rank, window, e, stream[n], Replay(rank, window, zero, stream))
  {
    hide KeepsFresh;
    hide RenewsStale;
    var n := |stream| - 1;
    assert stream[..n] + [stream[n]] == stream;
    if n > 0 && Nonnegative(rank, stream) {
      var _, _, _, _ := UpdatesAreFaithful(rank, window, zero, stream[..n], stream[n]);
    }
    var start, i, j, k := ReplayIsLocated(rank, window, zero, stream);
    assert Located(rank, stream, Replay(rank, window, zero, stream), start, i, j, k);
    assert Current(rank, window, stream, start, i);
  }

  class WindowedFilter<V> {
    const rank: V -> int
    const zero: V
    var windowLength: nat
    var estimates: seq<Entry<V>>

    ghost predicate Valid()
      reads this
    {
      |estimates| == 3 && rank(zero) == 0
    }

    ghost function Abs(): Estimates<V>
      requires Valid()
      reads this
    {
      Estimates(estimates[0], estimates[1], estimates[2])
    }

    constructor (windowLength: nat, rank: V -> int, zero: V)
      requires rank(zero) == 0
      ensures Valid() && Abs() == Same(Entry(zero, 0))
      ensures this.windowLength == windowLength && this.rank == rank && this.zero == zero
    {
      this.windowLength := windowLength;
      this.rank := rank;
      this.zero := zero;
      estimates := [Entry(zero, 0), Entry(zero, 0), Entry(zero, 0)];
    }

    method SetWindowLength(length: nat)
      modifies `windowLength
      ensures windowLength == length
    {
      windowLength := length;
    }

    function GetBest(): (v: V)
      requires Valid()
      reads this
      ensures v == Abs().best.sample
    {
      estimates[0].sample
    }

    method Update(newSample: V, newTime: int)
      requires Valid()
      modifies `estimates
      ensures Valid() && Abs() == Updated(rank, windowLength, old(Abs()), newSample, newTime)
    {
      var latest := Entry(newSample, newTime);
      if rank(estimates[0].sample) == rank(zero)
        || rank(newSample) >= rank(estimates[0].sample)
        || newTime - estimates[2].time > windowLength
      {
        Reset(newSample, newTime);
        return;
      }
      if rank(newSample) >= rank(estimates[1].sample) {
        estimates := estimates[1 := latest];
        estimates := estimates[2 := estimates[1]];
      } else if rank(newSample) >= rank(estimates[2].sample) {
        estimates := estimates[2 := latest];
      }
      if newTime - estimates[0].time > windowLength {
        estimates := estimates[0 := estimates[1]];
        estimates := estimates[1 := estimates[2]];
        estimates := estimates[2 := latest];
        if newTime - estimates[0].time > windowLength {
          estimates := estimates[0 := estimates[1]];
          estimates := estimates[1 := estimates[2]];
        }
        return;
      }
      if rank(estimates[1].sample) == rank(estimates[0].sample) && newTime - estimates[1].time > windowLength / 4 {
        estimates := estimates[1 := latest];
        estimates := estimates[2 := estimates[1]];
        return;
      }
      if rank(estimates[2].sample) == rank(estimates[1].sample) && newTime - estimates[2].time > windowLength / 2 {
        estimates := estimates[2 := latest];
      }
    }

    method Reset(newSample: V, newTime: int)
      requires Valid()
      modifies `estimates
      ensures Valid() && Abs() == Same(Entry(newSample, newTime))
    {
      estimates := estimates[2 := Entry(newSample, newTime)];
      estimates := estimates[1 := estimates[2]];
      estimates := estimates[0 := estimates[1]];
    }

    method Clear()
      requires Valid()
      modifies `estimates
      ensures Valid() && Abs() == Same(Entry(zero, 0))
    {
      estimates := [Entry(zero, 0), Entry(zero, 0), Entry(zero, 0)];
    }
  }
}
