/** Time stamps of the last minute, as both throttles keep them. */
module SlidingWindow {

  const Seconds := 60.0

  /** `[stamp for stamp in stamps if now - stamp < 60.0]` */
  function Recent(stamps: seq<real>, now: real): seq<real> {
    if stamps == [] then []
    else
      var last := stamps[|stamps| - 1];
      Recent(stamps[..|stamps| - 1], now) + (if now - last < Seconds then [last] else [])
  }

  predicate Rising(stamps: seq<real>) {
    forall i, j | 0 <= i < j < |stamps| :: stamps[i] <= stamps[j]
  }

  /** No window of 60 seconds holds more than `limit` stamps. */
  ghost predicate Spaced(stamps: seq<real>, limit: nat) {
    forall i, j | 0 <= i && j == i + limit && j < |stamps| :: stamps[j] - stamps[i] >= Seconds
  }

  function CountIn(stamps: seq<real>, start: real): nat {
    if stamps == [] then 0
    else
      var last := stamps[|stamps| - 1];
      CountIn(stamps[..|stamps| - 1], start) + (if start <= last < start + 60.0 then 1 else 0)
  }

  /** The stamps of the minute that ends now. */
  ghost function LastMinute(stamps: seq<real>, now: real): set<nat> {
    set i: nat | i < |stamps| && now - stamps[i] < 60.0
  }

  lemma {:induction false} RecentAreTheLastMinute(stamps: seq<real>, now: real)
    ensures |Recent(stamps, now)| == |LastMinute(stamps, now)|
  {
    if stamps == [] {
      assert LastMinute(stamps, now) == {};
    } else {
      var init, n := stamps[..|stamps| - 1], |stamps| - 1;
      RecentAreTheLastMinute(init, now);
      if now - stamps[n] < Seconds {
        assert LastMinute(stamps, now) == LastMinute(init, now) + {n};
      } else {
        assert LastMinute(stamps, now) == LastMinute(init, now);
      }
    }
  }

  lemma RecentOneMore(stamps: seq<real>, stamp: real, now: real)
    ensures Recent(stamps + [stamp], now) == Recent(stamps, now) + (if now - stamp < Seconds then [stamp] else [])
  {
    assert (stamps + [stamp])[..|stamps|] == stamps;
  }

  /** What was dropped for being old stays old. */
  lemma {:induction false} RecentTwice(stamps: seq<real>, earlier: real, now: real)
    requires earlier <= now
    ensures Recent(Recent(stamps, earlier), now) == Recent(stamps, now)
  {
    if stamps != [] {
      var init, last := stamps[..|stamps| - 1], stamps[|stamps| - 1];
      RecentTwice(init, earlier, now);
      if earlier - last < Seconds {
        RecentOneMore(Recent(init, earlier), last, now);
      } else {
        assert Recent(init, earlier) + [] == Recent(init, earlier);
        assert Recent(init, now) + [] == Recent(init, now);
      }
    }
  }

  predicate Before(stamp: real, mark: real, inclusive: bool) {
    stamp < mark || (inclusive && stamp == mark)
  }

  /** Rising stamps cross a mark once. */
  lemma {:induction false} Crossing(stamps: seq<real>, mark: real, inclusive: bool) returns (k: nat)
    requires Rising(stamps)
    ensures k <= |stamps| && forall i | 0 <= i < |stamps| :: Before(stamps[i], mark, inclusive) <==> i < k
  {
    if stamps == [] || Before(stamps[|stamps| - 1], mark, inclusive) {
      k := |stamps|;
    } else {
      var init := stamps[..|stamps| - 1];
      k := Crossing(init, mark, inclusive);
      assert forall i | 0 <= i < |init| :: init[i] == stamps[i];
    }
  }

  lemma {:induction false} RecentFrom(stamps: seq<real>, now: real, k: nat)
    requires k <= |stamps| && forall i | 0 <= i < |stamps| :: now - stamps[i] < Seconds <==> k <= i
    ensures Recent(stamps, now) == stamps[k..]
  {
    if stamps != [] {
      var n := |stamps| - 1;
      var init := stamps[..n];
      assert forall i | 0 <= i < n :: init[i] == stamps[i];
      if k <= n {
        RecentFrom(init, now, k);
        assert stamps[k..] == init[k..] + [stamps[n]];
      } else {
        RecentFrom(init, now, n);
        assert init[n..] == [] && stamps[k..] == [];
      }
    }
  }

  /** In rising stamps the recent ones are the last ones. */
  lemma RecentIsSuffix(stamps: seq<real>, now: real)
    requires Rising(stamps)
    ensures |Recent(stamps, now)| <= |stamps|
    ensures Recent(stamps, now) == stamps[|stamps| - |Recent(stamps, now)|..]
    ensures forall i | 0 <= i < |stamps| :: now - stamps[i] < Seconds <==> i >= |stamps| - |Recent(stamps, now)|
  {
    var k := Crossing(stamps, now - Seconds, true);
    assert forall i | 0 <= i < |stamps| :: now - stamps[i] < Seconds <==> !Before(stamps[i], now - Seconds, true);
    RecentFrom(stamps, now, k);
  }

  /** A stamp added while fewer than `limit` are recent keeps them spaced. */
  lemma AddSpaced(stamps: seq<real>, limit: nat, now: real)
    requires Rising(stamps) && Spaced(stamps, limit) && limit > 0 && |Recent(stamps, now)| < limit
    requires forall i | 0 <= i < |stamps| :: stamps[i] <= now
    ensures Rising(stamps + [now]) && Spaced(stamps + [now], limit)
  {
    RecentIsSuffix(stamps, now);
    var longer := stamps + [now];
    forall i, j | 0 <= i && j == i + limit && j < |longer| ensures longer[j] - longer[i] >= Seconds {
      if j == |stamps| {
        assert now - stamps[i] >= Seconds;
      } else {
        assert longer[j] == stamps[j] && longer[i] == stamps[i];
      }
    }
  }

  lemma {:induction false} CountBetween(stamps: seq<real>, start: real, a: nat, b: nat)
    requires a <= b <= |stamps|
    requires forall i | 0 <= i < |stamps| :: start <= stamps[i] < start + Seconds <==> a <= i < b
    ensures CountIn(stamps, start) == b - a
  {
    if stamps != [] {
      var n := |stamps| - 1;
      var init := stamps[..n];
      assert forall i | 0 <= i < n :: init[i] == stamps[i];
      CountBetween(init, start, if a <= n then a else n, if b <= n then b else n);
    }
  }

  /** Spaced stamps: no minute, wherever it starts, holds more than the limit. */
  lemma WindowHoldsAtMostLimit(stamps: seq<real>, limit: nat, start: real)
    requires Rising(stamps) && Spaced(stamps, limit)
    ensures CountIn(stamps, start) <= limit
  {
    var a := Crossing(stamps, start, false);
    var b := Crossing(stamps, start + Seconds, false);
    assert b < |stamps| ==> (Before(stamps[b], start, false) <==> b < a);
    forall i | 0 <= i < |stamps| ensures start <= stamps[i] < start + Seconds <==> a <= i < b {
      assert Before(stamps[i], start, false) <==> i < a;
      assert Before(stamps[i], start + Seconds, false) <==> i < b;
    }
    CountBetween(stamps, start, a, b);
    assert a + limit < |stamps| ==> stamps[a + limit] - stamps[a] >= Seconds;
  }
}
