/** Burst scheduling of the attention layer: a short burst is overlaid onto
    a silent buffer of the signal's duration at a fixed interval, starting at
    offset 0, for as long as the position is below a stop offset. The chirp
    loop stops at the duration itself; the ultrasonic ping loop stops 500 ms
    earlier so that no ping is cut off. */
module Schedule {
  import opened Numeric
  import opened Segments

  const ChirpIntervalMs: nat := 2000
  const ChirpLengthMs: nat := 300
  const PingIntervalMs: nat := 3500
  const PingLengthMs: nat := 500

  /** The positions the loop visits from `position` on: `position`,
      `position + interval`, ... while below `stop`. */
  function StartsFrom(position: nat, interval: nat, stop: int): (r: seq<nat>)
    requires interval > 0
    ensures r != [] <==> position < stop
    ensures r != [] ==> r[0] == position
    decreases if stop > position then stop - position else 0
  {
    if position < stop then [position] + StartsFrom(position + interval, interval, stop) else []
  }

  /** Every position at which a burst is placed, in placement order. */
  function Starts(interval: nat, stop: int): (r: seq<nat>)
    requires interval > 0
    ensures r != [] <==> stop > 0
    ensures r != [] ==> r[0] == 0
  {
    StartsFrom(0, interval, stop)
  }

  /** The silent buffer with the burst overlaid at each position in turn. */
  function PlaceAll(base: seq<Sample>, burst: seq<Sample>, positions: seq<nat>): (r: seq<Sample>)
    ensures |r| == |base|
    decreases |positions|
  {
    if positions == [] then base
    else Overlay(PlaceAll(base, burst, positions[..|positions| - 1]), burst, positions[|positions| - 1])
  }

  /** The tiling loop of the generator: place the burst, advance by the
      interval, repeat while the position is below `stop`. */
  method Tile(durationMs: int, burst: seq<Sample>, interval: nat, stop: int) returns (train: seq<Sample>)
    requires interval > 0
    ensures train == PlaceAll(Silent(durationMs), burst, Starts(interval, stop))
  {
    train := Silent(durationMs);
    var position: nat := 0;
    ghost var placed: seq<nat> := [];
    while position < stop
      invariant Starts(interval, stop) == placed + StartsFrom(position, interval, stop)
      invariant train == PlaceAll(Silent(durationMs), burst, placed)
      decreases stop - position
    {
      ghost var rest := StartsFrom(position + interval, interval, stop);
      assert StartsFrom(position, interval, stop) == [position] + rest;
      assert placed + ([position] + rest) == (placed + [position]) + rest;
      train := Overlay(train, burst, position);
      placed := placed + [position];
      assert placed[..|placed| - 1] + [position] == placed;
      position := position + interval;
    }
    assert StartsFrom(position, interval, stop) == [];
    assert placed + [] == placed;
  }

  // ---- the schedule -------------------------------------------------------

  /** The positions are `position + i * interval`, and there are just enough of
      them to reach `stop`: the last is below it and one more would not be. */
  lemma {:induction false} StartsFromShape(position: nat, interval: nat, stop: int)
    requires interval > 0
    ensures var s := StartsFrom(position, interval, stop);
            (stop <= position <==> s == []) &&
            (forall i :: 0 <= i < |s| ==> s[i] == position + i * interval) &&
            (position < stop ==> position + (|s| - 1) * interval < stop <= position + |s| * interval)
    decreases if stop > position then stop - position else 0
  {
    var s := StartsFrom(position, interval, stop);
    if position < stop {
      var t := StartsFrom(position + interval, interval, stop);
      StartsFromShape(position + interval, interval, stop);
      assert s == [position] + t;
      forall i | 0 <= i < |s| ensures s[i] == position + i * interval {
        if i > 0 {
          assert s[i] == t[i - 1];
          assert (i - 1) * interval + interval == i * interval;
        }
      }
      if t != [] {
        assert (|t| - 1) * interval + interval == (|s| - 1) * interval;
        assert |t| * interval + interval == |s| * interval;
      }
    }
  }

  /** The start positions are exactly the multiples of the interval that lie
      in [0, stop); there are ceil(stop / interval) of them for a positive
      stop and none otherwise. */
  lemma StartsCharacterised(interval: nat, stop: int)
    requires interval > 0
    ensures forall p :: p in Starts(interval, stop) <==> 0 <= p < stop && p % interval == 0
    ensures stop <= 0 ==> |Starts(interval, stop)| == 0
    ensures stop > 0 ==> (|Starts(interval, stop)| - 1) * interval < stop <= |Starts(interval, stop)| * interval
  {
    StartsFromShape(0, interval, stop);
    forall p | p in Starts(interval, stop) ensures 0 <= p < stop && p % interval == 0 {
      StartIsMultiple(interval, stop, p);
    }
    forall p: int | 0 <= p < stop && p % interval == 0 ensures p in Starts(interval, stop) {
      MultipleIsStart(interval, stop, p);
    }
  }

  /** One direction of `StartsCharacterised`, for one position. */
  lemma StartIsMultiple(interval: nat, stop: int, p: int)
    requires interval > 0 && p in Starts(interval, stop)
    ensures 0 <= p < stop && p % interval == 0
  {
    var s := Starts(interval, stop);
    StartsFromShape(0, interval, stop);
    var i :| 0 <= i < |s| && s[i] == p;
    MulMonotone(i, |s| - 1, interval);
    DivisionUnique(p, interval, i);
  }

  /** The other direction of `StartsCharacterised`, for one position. */
  lemma MultipleIsStart(interval: nat, stop: int, p: int)
    requires interval > 0 && 0 <= p < stop && p % interval == 0
    ensures p in Starts(interval, stop)
  {
    var s := Starts(interval, stop);
    StartsFromShape(0, interval, stop);
    var i := p / interval;
    DivisionUnique(p, interval, i);
    if i >= |s| { MulMonotone(|s|, i, interval); }
    assert s[i] == p;
  }

  /** Consecutive positions are `interval` apart. */
  lemma StartsSpacing(interval: nat, stop: int)
    requires interval > 0
    ensures forall i :: 0 <= i < |Starts(interval, stop)| ==> Starts(interval, stop)[i] == i * interval
    ensures Spaced(Starts(interval, stop), interval)
  {
    var s := Starts(interval, stop);
    StartsFromShape(0, interval, stop);
    forall i, j | 0 <= i < j < |s| ensures s[i] + interval <= s[j] {
      MulMonotone(i + 1, j, interval);
    }
  }

  /** No two placements overlap when each covers `width` samples. */
  ghost predicate Spaced(positions: seq<nat>, width: nat) {
    forall i, j :: 0 <= i < j < |positions| ==> positions[i] + width <= positions[j]
  }

  /** Sample `k` lies under none of the placements. */
  ghost predicate Uncovered(positions: seq<nat>, width: nat, k: int) {
    forall i :: 0 <= i < |positions| ==> !(positions[i] <= k < positions[i] + width)
  }

  /** Under each placement, `r` holds the burst. */
  ghost predicate CarriesBursts(r: seq<Sample>, burst: seq<Sample>, positions: seq<nat>) {
    forall i, k :: 0 <= i < |positions| && positions[i] <= k < positions[i] + |burst| && k < |r| ==>
      r[k] == burst[k - positions[i]]
  }

  /** Away from every placement, `r` is silent. */
  ghost predicate SilentElsewhere(r: seq<Sample>, burst: seq<Sample>, positions: seq<nat>) {
    forall k :: 0 <= k < |r| && Uncovered(positions, |burst|, k) ==> r[k] == 0
  }

  /** Non-overlapping bursts on silence: under a placement the buffer holds the
      burst itself, elsewhere it stays silent. */
  lemma {:induction false} PlaceAllOnSilence(durationMs: int, burst: seq<Sample>, positions: seq<nat>)
    requires Spaced(positions, |burst|)
    ensures CarriesBursts(PlaceAll(Silent(durationMs), burst, positions), burst, positions)
    ensures SilentElsewhere(PlaceAll(Silent(durationMs), burst, positions), burst, positions)
    decreases |positions|
  {
    if positions != [] {
      var init, p := positions[..|positions| - 1], positions[|positions| - 1];
      assert positions == init + [p];
      assert Spaced(init, |burst|);
      PlaceAllOnSilence(durationMs, burst, init);
      var prev := PlaceAll(Silent(durationMs), burst, init);
      CoveredAfterPlacing(prev, burst, init, p);
      SilentAfterPlacing(prev, burst, init, p);
    }
  }

  /** The inductive step of `PlaceAllOnSilence` under the placements: the new
      burst lands on silence, and the earlier ones are not touched by it. */
  lemma CoveredAfterPlacing(prev: seq<Sample>, burst: seq<Sample>, init: seq<nat>, p: nat)
    requires Spaced(init + [p], |burst|)
    requires CarriesBursts(prev, burst, init) && SilentElsewhere(prev, burst, init)
    ensures CarriesBursts(Overlay(prev, burst, p), burst, init + [p])
  {
    var positions := init + [p];
    var n := |init|;
    var r := Overlay(prev, burst, p);
    forall i, k | 0 <= i < |positions| && positions[i] <= k < positions[i] + |burst| && k < |r|
      ensures r[k] == burst[k - positions[i]]
    {
      if i < n {
        assert positions[n] == p;
        assert positions[i] + |burst| <= p;
        assert init[i] == positions[i];
      } else {
        assert Uncovered(init, |burst|, k) by {
          forall j | 0 <= j < |init| ensures !(init[j] <= k < init[j] + |burst|) {
            assert positions[j] + |burst| <= positions[n];
          }
        }
        assert prev[k] == 0;
      }
    }
  }

  /** The inductive step of `PlaceAllOnSilence` away from the placements. */
  lemma SilentAfterPlacing(prev: seq<Sample>, burst: seq<Sample>, init: seq<nat>, p: nat)
    requires SilentElsewhere(prev, burst, init)
    ensures SilentElsewhere(Overlay(prev, burst, p), burst, init + [p])
  {
    var positions := init + [p];
    var r := Overlay(prev, burst, p);
    forall k | 0 <= k < |r| && Uncovered(positions, |burst|, k) ensures r[k] == 0 {
      assert !(positions[|init|] <= k < positions[|init|] + |burst|);
      assert Uncovered(init, |burst|, k) by {
        forall i | 0 <= i < |init| ensures !(init[i] <= k < init[i] + |burst|) {
          assert init[i] == positions[i];
        }
      }
    }
  }

  /** Placements one interval apart leave room for any burst no longer than the interval. */
  lemma StartsSpacedFor(interval: nat, stop: int, width: nat)
    requires interval > 0 && width <= interval
    ensures Spaced(Starts(interval, stop), width)
  {
    StartsSpacing(interval, stop);
  }

  /** The period containing `k` started at `k - k % interval`, which is a start
      position when it lies below `stop`. */
  lemma CoveringStart(interval: nat, stop: int, k: nat) returns (i: nat)
    requires interval > 0 && k - k % interval < stop
    ensures i < |Starts(interval, stop)| && Starts(interval, stop)[i] == k - k % interval
  {
    var s := Starts(interval, stop);
    StartsFromShape(0, interval, stop);
    i := k / interval;
    assert k == i * interval + k % interval;
    if i >= |s| { MulMonotone(|s|, i, interval); }
  }

  /** A start position whose interval contains `k` is the start of `k`'s period. */
  lemma OnlyCoveringStart(interval: nat, stop: int, k: nat, i: nat)
    requires interval > 0 && i < |Starts(interval, stop)|
    requires Starts(interval, stop)[i] <= k < Starts(interval, stop)[i] + interval
    ensures Starts(interval, stop)[i] == k - k % interval
    ensures Starts(interval, stop)[i] < stop
  {
    StartsSpacing(interval, stop);
    StartsCharacterised(interval, stop);
    DivisionUnique(k, interval, i);
    assert Starts(interval, stop)[i] in Starts(interval, stop);
  }

  /** The tiled buffer, sample by sample: with a burst no longer than the
      interval, sample `k` is the burst's sample `k % interval` when that
      offset falls inside the burst and its period started before `stop`;
      otherwise it is silence. */
  lemma TrainContent(durationMs: int, burst: seq<Sample>, interval: nat, stop: int, k: nat)
    requires interval > 0 && |burst| <= interval && k < NonNegative(durationMs)
    ensures PlaceAll(Silent(durationMs), burst, Starts(interval, stop))[k] ==
            if k % interval < |burst| && k - k % interval < stop then burst[k % interval] else 0
  {
    if k % interval < |burst| && k - k % interval < stop {
      TrainUnderBurst(durationMs, burst, interval, stop, k);
    } else {
      TrainBetweenBursts(durationMs, burst, interval, stop, k);
    }
  }

  lemma TrainUnderBurst(durationMs: int, burst: seq<Sample>, interval: nat, stop: int, k: nat)
    requires interval > 0 && |burst| <= interval && k < NonNegative(durationMs)
    requires k % interval < |burst| && k - k % interval < stop
    ensures PlaceAll(Silent(durationMs), burst, Starts(interval, stop))[k] == burst[k % interval]
  {
    var s := Starts(interval, stop);
    StartsSpacedFor(interval, stop, |burst|);
    var i := CoveringStart(interval, stop, k);
    PlaceAllUnder(durationMs, burst, s, i, k);
  }

  /** Pointwise form of the first half of PlaceAllOnSilence. */
  lemma PlaceAllUnder(durationMs: int, burst: seq<Sample>, positions: seq<nat>, i: nat, k: nat)
    requires Spaced(positions, |burst|)
    requires i < |positions| && positions[i] <= k < positions[i] + |burst| && k < NonNegative(durationMs)
    ensures PlaceAll(Silent(durationMs), burst, positions)[k] == burst[k - positions[i]]
  {
    PlaceAllOnSilence(durationMs, burst, positions);
  }

  lemma TrainBetweenBursts(durationMs: int, burst: seq<Sample>, interval: nat, stop: int, k: nat)
    requires interval > 0 && |burst| <= interval && k < NonNegative(durationMs)
    requires !(k % interval < |burst| && k - k % interval < stop)
    ensures PlaceAll(Silent(durationMs), burst, Starts(interval, stop))[k] == 0
  {
    var s := Starts(interval, stop);
    StartsSpacedFor(interval, stop, |burst|);
    PlaceAllOnSilence(durationMs, burst, s);
    assert Uncovered(s, |burst|, k) by {
      forall i | 0 <= i < |s| ensures !(s[i] <= k < s[i] + |burst|) {
        if s[i] <= k < s[i] + |burst| {
          OnlyCoveringStart(interval, stop, k, i);
        }
      }
    }
  }

  /** Chirps start at exactly the multiples of 2000 ms below the duration;
      the last one may run past the end of the buffer, which drops it. */
  lemma ChirpStarts(durationMs: int)
    ensures forall p :: p in Starts(ChirpIntervalMs, durationMs) <==> 0 <= p < durationMs && p % 2000 == 0
    ensures durationMs <= 0 ==> Starts(ChirpIntervalMs, durationMs) == []
    ensures durationMs > 0 ==> |Starts(ChirpIntervalMs, durationMs)| == (durationMs + 1999) / 2000
  {
    StartsCharacterised(ChirpIntervalMs, durationMs);
  }

  /** The chirp train repeats the burst in every 2000 ms period of the
      buffer, the last period included, and is silent in between. */
  lemma ChirpTrainRepeats(durationMs: int, chirp: seq<Sample>, k: nat)
    requires |chirp| <= ChirpIntervalMs && k < NonNegative(durationMs)
    ensures PlaceAll(Silent(durationMs), chirp, Starts(ChirpIntervalMs, durationMs))[k] ==
            if k % 2000 < |chirp| then chirp[k % 2000] else 0
  {
    TrainContent(durationMs, chirp, ChirpIntervalMs, durationMs, k);
  }

  /** The ping train carries the burst only in periods that start more than
      500 ms before the end. */
  lemma PingTrainContent(durationMs: int, ping: seq<Sample>, k: nat)
    requires |ping| <= PingIntervalMs && k < NonNegative(durationMs)
    ensures PlaceAll(Silent(durationMs), ping, Starts(PingIntervalMs, durationMs - PingLengthMs))[k] ==
            if k % 3500 < |ping| && k - k % 3500 < durationMs - 500 then ping[k % 3500] else 0
  {
    TrainContent(durationMs, ping, PingIntervalMs, durationMs - PingLengthMs, k);
  }

  /** Pings start at exactly the multiples of 3500 ms below `duration - 500`,
      so every 500 ms ping ends before the buffer does. */
  lemma PingStarts(durationMs: int)
    ensures forall p :: p in Starts(PingIntervalMs, durationMs - PingLengthMs) <==>
              0 <= p < durationMs - 500 && p % 3500 == 0
    ensures var s := Starts(PingIntervalMs, durationMs - PingLengthMs);
            forall i :: 0 <= i < |s| ==> s[i] + PingLengthMs < durationMs
    ensures durationMs <= 500 ==> Starts(PingIntervalMs, durationMs - PingLengthMs) == []
  {
    var s := Starts(PingIntervalMs, durationMs - PingLengthMs);
    StartsCharacterised(PingIntervalMs, durationMs - PingLengthMs);
    forall i | 0 <= i < |s| ensures s[i] + PingLengthMs < durationMs {
      assert s[i] in s;
    }
  }

  /** A ten-second signal gets chirps at 0, 2000, 4000, 6000 and 8000 ms and
      pings at 0, 3500 and 7000 ms (the next ping, at 10500, is past 9500). */
  lemma TenSecondSchedule()
    ensures Starts(ChirpIntervalMs, 10000) == [0, 2000, 4000, 6000, 8000]
    ensures Starts(PingIntervalMs, 10000 - PingLengthMs) == [0, 3500, 7000]
  {
    StartsFromShape(0, ChirpIntervalMs, 10000);
    StartsFromShape(0, PingIntervalMs, 10000 - PingLengthMs);
  }

  /** With a 10100 ms signal the last chirp starts at 10000 ms and its 300 ms
      run past the end: the tiling does not prevent an overrun. */
  lemma LastChirpMayOverrun()
    ensures var s := Starts(ChirpIntervalMs, 10100);
            |s| == 6 && s[5] == 10000 && s[5] + ChirpLengthMs > 10100
  {
    StartsFromShape(0, ChirpIntervalMs, 10100);
  }
}
