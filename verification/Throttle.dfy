/**
 The in-memory throttles (app/core/captcha.py, app/core/login_throttle.py). Times come from a clock that
 does not run backwards. The ghost log holds what happened to a source since it was last forgotten.
 */
module Throttle {
  import opened Results
  import opened SlidingWindow
  import Json

  type Table = map<string, seq<real>>

  const MaxSources: nat := 50_000
  const MaxGenerations: nat := 30
  const MaxFailures: nat := 10

  function Of(table: Table, source: string): seq<real> {
    if source in table then table[source] else []
  }

  /** No list is empty, so every source has a latest stamp. */
  ghost predicate Full(table: Table) {
    forall source | source in table :: table[source] != []
  }

  /** The table answers every question about the last minute as the log would, now and later. */
  ghost predicate Tells(table: Table, log: Table, clock: real) {
    && table.Keys <= log.Keys
    && forall source, now :: now >= clock ==> Recent(Of(table, source), now) == Recent(Of(log, source), now)
  }

  ghost predicate Past(log: Table, clock: real) {
    forall source | source in log :: Rising(log[source]) && forall i | 0 <= i < |log[source]| :: log[source][i] <= clock
  }

  function Latest(stamps: seq<real>): real {
    if stamps == [] then 0.0 else stamps[|stamps| - 1]
  }

  predicate Oldest(table: Table, source: string) {
    source in table && forall other | other in table :: Latest(table[source]) <= Latest(table[other])
  }

  lemma {:induction false} HasOldest(table: Table)
    requires table != map[]
    ensures exists source :: Oldest(table, source)
    decreases |table|
  {
    hide Latest;
    var source :| source in table;
    var rest := table - {source};
    assert rest.Keys == table.Keys - {source};
    assert forall k | k in table :: k == source || k in rest;
    if rest == map[] {
      assert Oldest(table, source);
    } else {
      HasOldest(rest);
      var other :| Oldest(rest, other);
      assert Oldest(table, if Latest(table[other]) <= Latest(table[source]) then other else source);
    }
  }

  /** No stamp of the table lies ahead of the clock. */
  ghost predicate Reached(table: Table, clock: real) {
    forall source, stamp | source in table && stamp in table[source] :: stamp <= clock
  }

  /** The latest to come is last in line: some other source is oldest. */
  lemma OldestOther(table: Table, newest: string)
    requires newest in table && |table| > 1
    requires forall other | other in table :: Latest(table[other]) <= Latest(table[newest])
    ensures exists source :: source in table.Keys && source != newest && Oldest(table, source)
  {
    hide Latest;
    var rest := table - {newest};
    assert rest.Keys == table.Keys - {newest};
    assert rest != map[] by { assert |rest.Keys| == |table| - 1; }
    HasOldest(rest);
    var source :| Oldest(rest, source);
    assert forall k | k in table :: k == newest || k in rest;
    assert Oldest(table, source);
  }

  /**
   Forgets the sources with the oldest latest stamp, and no more than it must; the source stamped last, which
   came last into the table, stays.
   */
  method Evict(table: Table, capacity: nat, newest: string) returns (smaller: Table)
    requires Full(table) && capacity > 0 && newest in table
    requires forall other | other in table :: Latest(table[other]) <= Latest(table[newest])
    ensures Full(smaller) && smaller.Keys <= table.Keys && newest in smaller
    ensures |smaller| == if |table| > capacity then capacity else |table|
    ensures forall source | source in smaller :: smaller[source] == table[source]
    ensures |table| <= capacity ==> smaller == table
    ensures forall gone, kept | gone in table && gone !in smaller && kept in smaller ::
      Latest(table[gone]) <= Latest(table[kept])
  {
    smaller := table;
    while |smaller| > capacity
      invariant Full(smaller) && smaller.Keys <= table.Keys && newest in smaller
      invariant forall source | source in smaller :: smaller[source] == table[source]
      invariant smaller == table || |smaller| >= capacity
      invariant |table| <= capacity ==> smaller == table
      invariant forall gone, kept | gone in table && gone !in smaller && kept in smaller ::
        Latest(table[gone]) <= Latest(table[kept])
      decreases |smaller|
    {
      hide Latest;
      OldestOther(smaller, newest);
      var oldest :| oldest in smaller.Keys && oldest != newest && Oldest(smaller, oldest);
      assert (smaller - {oldest}).Keys == smaller.Keys - {oldest};
      smaller := smaller - {oldest};
    }
  }

  /** What a new stamp leaves of the table: at most one source goes, and only for a new one in a full table. */
  ghost predicate StampedTable(before: Table, after: Table, source: string, now: real, evicted: set<string>) {
    && after == before[source := Recent(Of(before, source), now) + [now]] - evicted
    && source !in evicted && |evicted| <= 1
    && (evicted == {} <==> source in before || |before| < 50_000)
    && forall gone | gone in evicted :: Oldest(before, gone)
  }

  lemma KeysApart(stamped: Table, after: Table)
    requires after.Keys <= stamped.Keys && forall k | k in after :: after[k] == stamped[k]
    ensures |stamped| == |after| + |stamped.Keys - after.Keys|
    ensures after == stamped - (stamped.Keys - after.Keys)
  {
    assert stamped.Keys == after.Keys + (stamped.Keys - after.Keys);
  }

  lemma KeysStamped(before: Table, source: string, stamps: seq<real>)
    ensures |before[source := stamps]| == |before| + if source in before then 0 else 1
  {
    assert before[source := stamps].Keys == before.Keys + {source};
    if source in before { assert before.Keys + {source} == before.Keys; }
  }

  lemma AtMostOne(s: set<string>, a: string, b: string)
    requires |s| <= 1 && a in s && b in s
    ensures a == b
  {
    assert |s - {a}| == 0;
    assert b !in s - {a};
  }

  /** The one source too many, when there is one, had an oldest latest stamp. */
  lemma EvictedIsOldest(before: Table, stamped: Table, after: Table, source: string, now: real)
    requires |before| <= MaxSources && stamped == before[source := Recent(Of(before, source), now) + [now]]
    requires after.Keys <= stamped.Keys && source in after
    requires |after| == if |stamped| > MaxSources then MaxSources else |stamped|
    requires forall k | k in after :: after[k] == stamped[k]
    requires forall gone, kept | gone in stamped && gone !in after && kept in after ::
      Latest(stamped[gone]) <= Latest(stamped[kept])
    ensures StampedTable(before, after, source, now, stamped.Keys - after.Keys)
  {
    hide Latest, Recent, Of;
    var evicted := stamped.Keys - after.Keys;
    KeysApart(stamped, after);
    KeysStamped(before, source, Recent(Of(before, source), now) + [now]);
    forall gone | gone in evicted ensures Oldest(before, gone) {
      hide StampedTable;
      assert source !in before;
      forall other | other in evicted ensures other == gone { AtMostOne(evicted, gone, other); }
      OnlyOneGone(before, stamped, after, source, gone);
    }
  }

  lemma OnlyOneGone(before: Table, stamped: Table, after: Table, source: string, gone: string)
    requires source !in before && source in stamped && stamped == before[source := stamped[source]]
    requires gone in stamped && gone !in after && source in after && after.Keys <= stamped.Keys
    requires forall other | other in stamped && other !in after :: other == gone
    requires forall kept | kept in after :: Latest(stamped[gone]) <= Latest(stamped[kept])
    ensures Oldest(before, gone)
  {
    hide Latest;
    forall other | other in before ensures Latest(before[gone]) <= Latest(before[other]) {
      assert other in stamped && stamped[other] == before[other];
    }
  }

  lemma {:induction false} RecentMembers(stamps: seq<real>, now: real)
    ensures forall stamp | stamp in Recent(stamps, now) :: stamp in stamps
  {
    if stamps != [] { RecentMembers(stamps[..|stamps| - 1], now); }
  }

  lemma ReachedLater(table: Table, clock: real, source: string, now: real)
    requires Reached(table, clock) && clock <= now
    ensures Reached(table[source := Recent(Of(table, source), now)], now)
    ensures Reached(table[source := Recent(Of(table, source), now) + [now]], now)
    ensures Reached(table, now)
  {
    hide Recent;
    RecentMembers(Of(table, source), now);
  }

  lemma StampIsLatest(table: Table, source: string, now: real)
    requires Reached(table, now) && Full(table) && source in table && table[source][|table[source]| - 1] == now
    ensures forall other | other in table :: Latest(table[other]) <= Latest(table[source])
  {
    forall other | other in table ensures Latest(table[other]) <= now {
      assert table[other] != [] && table[other][|table[other]| - 1] in table[other];
    }
  }

  /** Cleaning a source's list at `now` loses nothing later questions ask for. */
  lemma Cleaned(table: Table, log: Table, clock: real, source: string, now: real, t: Table)
    requires Tells(table, log, clock) && clock <= now && source in log
    requires t == table[source := Recent(Of(table, source), now)]
      || (t == table - {source} && Recent(Of(table, source), now) == [])
    ensures Tells(t, log, now)
  {
    forall other, later | later >= now ensures Recent(Of(t, other), later) == Recent(Of(log, other), later) {
      assert Recent(Of(table, other), later) == Recent(Of(log, other), later);
      if other == source {
        RecentTwice(Of(table, source), now, later);
        assert Of(t, source) == Recent(Of(table, source), now);
      } else {
        assert Of(t, other) == Of(table, other);
      }
    }
  }

  /** `source` gets one more stamp at `now`. */
  lemma Stamped(table: Table, log: Table, clock: real, source: string, now: real)
    requires Tells(table, log, clock) && clock <= now
    ensures Tells(table[source := Recent(Of(table, source), now) + [now]], log[source := Of(log, source) + [now]], now)
  {
    var t, l := table[source := Recent(Of(table, source), now) + [now]], log[source := Of(log, source) + [now]];
    forall other, later | later >= now ensures Recent(Of(t, other), later) == Recent(Of(l, other), later) {
      assert Recent(Of(table, other), later) == Recent(Of(log, other), later);
      if other == source {
        RecentTwice(Of(table, source), now, later);
        RecentOneMore(Recent(Of(table, source), now), now, later);
        RecentOneMore(Of(log, source), now, later);
      } else {
        assert Of(t, other) == Of(table, other) && Of(l, other) == Of(log, other);
      }
    }
  }

  lemma FewerReached(table: Table, smaller: Table, clock: real)
    requires Reached(table, clock) && smaller.Keys <= table.Keys
    requires forall source | source in smaller :: smaller[source] == table[source]
    ensures Reached(smaller, clock)
  {
  }

  lemma Forgotten(table: Table, smaller: Table, log: Table, clock: real)
    requires Tells(table, log, clock) && smaller.Keys <= table.Keys
    requires forall source | source in smaller :: smaller[source] == table[source]
    ensures Tells(smaller, log - (table.Keys - smaller.Keys), clock)
  {
    var fewer := log - (table.Keys - smaller.Keys);
    forall source, now | now >= clock ensures Recent(Of(smaller, source), now) == Recent(Of(fewer, source), now) {
      assert Recent(Of(table, source), now) == Recent(Of(log, source), now);
      if source in table && source !in smaller {
        assert Of(smaller, source) == [] && Of(fewer, source) == [];
      } else {
        assert Of(smaller, source) == Of(table, source) && Of(fewer, source) == Of(log, source);
      }
    }
  }

  /** Captcha images: at most 30 in a minute for one source. */
  class CaptchaGate {
    var times: Table
    ghost var log: Table
    ghost var clock: real

    /** `log` holds the grants of each source since it was last evicted. */
    ghost predicate Valid()
      reads this
    {
      && Full(times) && |times| <= MaxSources && Reached(times, clock)
      && Tells(times, log, clock) && Granted(log, clock)
    }

    constructor (now: real)
      ensures Valid() && log == map[] && clock == now
    {
      times, log, clock := map[], map[], now;
    }

    /** Granted exactly when the source had fewer than 30 grants in the last minute; only grants are logged. */
    method Allow(source: string, now: real) returns (granted: bool, ghost evicted: set<string>)
      requires Valid() && clock <= now
      modifies this
      ensures Valid() && clock == now
      ensures
        var past := if source in old(log) then old(log)[source] else [];
        && (granted <==> |LastMinute(past, now)| < 30)
        && log == if granted then old(log)[source := past + [now]] - evicted else old(log)
      ensures
        if granted then StampedTable(old(times), times, source, now, evicted)
        else evicted == {} && times == old(times)[source := Recent(Of(old(times), source), now)]
    {
      hide Tells, Granted, Full, Recent, Reached, StampedTable, Latest, LastMinute;
      var stamps := Recent(Of(times, source), now);
      TellsNow(times, log, clock, source, now);
      RecentAreTheLastMinute(Of(log, source), now);
      GrantedLater(log, clock, now);
      ReachedLater(times, clock, source, now);
      if |stamps| >= MaxGenerations {
        Kept(times, log, clock, source, now, stamps);
        times := times[source := stamps];
        clock := now;
        return false, {};
      }
      Stamped(times, log, clock, source, now);
      OneMoreGrant(log, clock, source, now);
      Filled(times, source, stamps, now);
      times := times[source := stamps + [now]];
      log := log[source := Of(log, source) + [now]];
      clock := now;
      StampIsLatest(times, source, now);
      var smaller := Evict(times, MaxSources, source);
      EvictedIsOldest(old(times), times, smaller, source, now);
      FewerReached(times, smaller, now);
      evicted := times.Keys - smaller.Keys;
      Forgotten(times, smaller, log, now);
      FewerGranted(log, evicted, now);
      log := log - evicted;
      times := smaller;
      return true, evicted;
    }
  }

  /** The log is in order, not ahead of the clock, and within the limit for every source. */
  ghost predicate Granted(log: Table, clock: real) {
    Past(log, clock) && forall source | source in log :: Spaced(log[source], MaxGenerations)
  }

  lemma TellsNow(table: Table, log: Table, clock: real, source: string, now: real)
    requires Tells(table, log, clock) && clock <= now
    ensures Recent(Of(table, source), now) == Recent(Of(log, source), now)
    ensures Tells(table, log, now)
  {
    hide Recent;
  }

  lemma GrantedLater(log: Table, clock: real, now: real)
    requires Granted(log, clock) && clock <= now
    ensures Granted(log, now)
  {
  }

  /** A refused source has stamps, so its cleaned list is not empty and its key was there. */
  lemma Kept(table: Table, log: Table, clock: real, source: string, now: real, stamps: seq<real>)
    requires Tells(table, log, clock) && clock <= now && Full(table)
    requires stamps == Recent(Of(table, source), now) && |stamps| >= MaxGenerations
    ensures Tells(table[source := stamps], log, now) && Full(table[source := stamps])
    ensures |table[source := stamps]| == |table|
  {
    assert source in table;
    Cleaned(table, log, clock, source, now, table[source := stamps]);
    assert table[source := stamps].Keys == table.Keys;
  }

  lemma OneMoreGrant(log: Table, clock: real, source: string, now: real)
    requires Granted(log, clock) && clock <= now && |Recent(Of(log, source), now)| < MaxGenerations
    ensures Granted(log[source := Of(log, source) + [now]], now)
  {
    AddSpaced(Of(log, source), MaxGenerations, now);
  }

  lemma Filled(table: Table, source: string, stamps: seq<real>, now: real)
    requires Full(table)
    ensures Full(table[source := stamps + [now]])
    ensures |table[source := stamps + [now]]| <= |table| + 1
  {
    assert table[source := stamps + [now]].Keys == table.Keys + {source};
  }

  lemma FewerGranted(log: Table, gone: set<string>, now: real)
    requires Granted(log, now)
    ensures Granted(log - gone, now)
  {
  }

  /** While a source is not evicted, no minute holds more than 30 of its grants, wherever it starts. */
  lemma GrantsPerMinute(log: Table, clock: real, source: string, start: real)
    requires Granted(log, clock)
    ensures source in log ==> CountIn(log[source], start) <= 30
  {
    if source in log { WindowHoldsAtMostLimit(log[source], MaxGenerations, start); }
  }

  /** Failed logins: no more tries after 10 failures within a minute. */
  class LoginThrottle {
    var failures: Table
    ghost var log: Table
    ghost var clock: real

    /** `log` holds the failures of each source since it was last evicted or reset. */
    ghost predicate Valid()
      reads this
    {
      Full(failures) && |failures| <= MaxSources && Reached(failures, clock) && Tells(failures, log, clock)
    }

    constructor (now: real)
      ensures Valid() && log == map[] && clock == now
    {
      failures, log, clock := map[], map[], now;
    }

    /** Refuses exactly the sources with 10 failures in the last minute; a source without any is dropped. */
    method Allow(source: string, now: real) returns (allowed: bool)
      requires Valid() && clock <= now
      modifies this
      ensures Valid() && clock == now && log == old(log)
      ensures
        var past := if source in log then log[source] else [];
        && (allowed <==> |LastMinute(past, now)| < 10)
        && (source in failures <==> LastMinute(past, now) != {})
      ensures failures - {source} == old(failures) - {source}
    {
      hide Tells, Recent, Reached, Full, LastMinute;
      var attempts := Recent(Of(failures, source), now);
      TellsNow(failures, log, clock, source, now);
      RecentAreTheLastMinute(Of(log, source), now);
      CleanedTable(failures, log, clock, source, now);
      if attempts != [] {
        failures := failures[source := attempts];
      } else {
        failures := failures - {source};
      }
      clock := now;
      return |attempts| < MaxFailures;
    }

    /** Adds one failure; only a new source in a full table makes it forget one other, the oldest. */
    method RecordFailure(source: string, now: real) returns (ghost evicted: set<string>)
      requires Valid() && clock <= now
      modifies this
      ensures Valid() && clock == now
      ensures log == old(log)[source := (if source in old(log) then old(log)[source] else []) + [now]] - evicted
      ensures StampedTable(old(failures), failures, source, now, evicted)
    {
      hide Tells, Recent, Full, Reached, StampedTable, Latest;
      var attempts := Recent(Of(failures, source), now);
      ReachedLater(failures, clock, source, now);
      Stamped(failures, log, clock, source, now);
      Filled(failures, source, attempts, now);
      failures := failures[source := attempts + [now]];
      log := log[source := Of(log, source) + [now]];
      clock := now;
      StampIsLatest(failures, source, now);
      var smaller := Evict(failures, MaxSources, source);
      EvictedIsOldest(old(failures), failures, smaller, source, now);
      FewerReached(failures, smaller, now);
      evicted := failures.Keys - smaller.Keys;
      Forgotten(failures, smaller, log, now);
      log := log - evicted;
      failures := smaller;
    }

    method Reset(source: string)
      requires Valid()
      modifies this
      ensures Valid() && clock == old(clock) && log == old(log) - {source} && failures == old(failures) - {source}
    {
      hide Tells, Recent, Reached, Full;
      Unlogged(failures, log, clock, source);
      FewerReached(failures, failures - {source}, clock);
      FewerFull(failures, source);
      failures := failures - {source};
      log := log - {source};
    }
  }

  lemma FewerFull(table: Table, source: string)
    requires Full(table)
    ensures Full(table - {source})
  {
  }

  lemma Refreshed(table: Table, log: Table, clock: real, source: string, now: real, attempts: seq<real>)
    requires Tells(table, log, clock) && clock <= now && Full(table)
    requires attempts == Recent(Of(table, source), now) && attempts != []
    ensures Tells(table[source := attempts], log, now) && Full(table[source := attempts])
    ensures |table[source := attempts]| == |table|
  {
    assert source in table;
    Cleaned(table, log, clock, source, now, table[source := attempts]);
    assert table[source := attempts].Keys == table.Keys;
  }

  lemma Dropped(table: Table, log: Table, clock: real, source: string, now: real)
    requires Tells(table, log, clock) && clock <= now && Recent(Of(table, source), now) == []
    ensures Tells(table - {source}, log, now) && |table - {source}| <= |table|
  {
    Smaller(table, source);
    if source in table {
      Cleaned(table, log, clock, source, now, table - {source});
    } else {
      assert table - {source} == table;
    }
  }

  lemma CleanedTable(table: Table, log: Table, clock: real, source: string, now: real)
    requires Full(table) && |table| <= MaxSources && Reached(table, clock) && Tells(table, log, clock) && clock <= now
    ensures
      var attempts := Recent(Of(table, source), now);
      var t := if attempts != [] then table[source := attempts] else table - {source};
      && Full(t) && |t| <= MaxSources && Reached(t, now) && Tells(t, log, now)
      && t - {source} == table - {source}
  {
    hide Tells, Recent, Reached;
    var attempts := Recent(Of(table, source), now);
    ReachedLater(table, clock, source, now);
    FewerReached(table, table - {source}, now);
    if attempts != [] {
      Refreshed(table, log, clock, source, now, attempts);
    } else {
      Dropped(table, log, clock, source, now);
    }
  }

  lemma Smaller(table: Table, source: string)
    ensures |table - {source}| <= |table|
  {
    assert (table - {source}).Keys == table.Keys - {source};
  }

  lemma Unlogged(table: Table, log: Table, clock: real, source: string)
    requires Tells(table, log, clock)
    ensures Tells(table - {source}, log - {source}, clock) && |table - {source}| <= |table|
  {
    Smaller(table, source);
    var t, l := table - {source}, log - {source};
    forall other, now | now >= clock ensures Recent(Of(t, other), now) == Recent(Of(l, other), now) {
      assert Recent(Of(table, other), now) == Recent(Of(log, other), now);
      if other != source { assert Of(t, other) == Of(table, other) && Of(l, other) == Of(log, other); }
    }
  }

  // ---- Captcha tokens ----

  datatype Pending = Pending(code: string, created: real)

  const Lifetime := 300.0
  const MaxPending: nat := 10_000

  function Unexpired(store: map<string, Pending>, now: real): map<string, Pending> {
    map t | t in store && now - store[t].created <= Lifetime :: store[t]
  }

  /** Drops the oldest tokens until there is room for one more, and no more than that. */
  method MakeRoom(live: map<string, Pending>) returns (smaller: map<string, Pending>)
    requires |live| <= MaxPending
    ensures
      if |live| < MaxPending then smaller == live
      else exists gone :: Earliest(live, gone) && smaller == live - {gone}
  {
    smaller := live;
    while |smaller| >= MaxPending
      invariant smaller == live
        || (|live| == MaxPending && exists gone :: Earliest(live, gone) && smaller == live - {gone})
      decreases |smaller|
    {
      if smaller != live {
        var gone :| Earliest(live, gone) && smaller == live - {gone};
        OneFewer(live, gone);
      }
      HasEarliest(smaller);
      assert exists t :: t in smaller.Keys && Earliest(smaller, t);
      var oldest :| oldest in smaller.Keys && Earliest(smaller, oldest);
      OneFewer(smaller, oldest);
      smaller := smaller - {oldest};
    }
  }

  lemma OneFewer(store: map<string, Pending>, token: string)
    requires token in store
    ensures |store - {token}| == |store| - 1
  {
    assert (store - {token}).Keys == store.Keys - {token};
  }

  class CaptchaStore {
    var store: map<string, Pending>

    ghost predicate Valid()
      reads this
    {
      |store| <= MaxPending
    }

    constructor ()
      ensures Valid() && store == map[]
    {
      store := map[];
    }

    /** Drops what expired and then, only if the store is still full, one oldest token; every other stays. */
    method Generate(token: string, code: string, now: real)
      requires Valid()
      modifies this
      ensures Valid()
      ensures
        var live := map t | t in old(store) && now - old(store)[t].created <= 300.0 :: old(store)[t];
        var added := Pending(code, now);
        if |live| < 10_000 then store == live[token := added]
        else exists gone :: Earliest(live, gone) && store == (live - {gone})[token := added]
    {
      var live := Unexpired(store, now);
      assert live.Keys <= store.Keys;
      Subset(live.Keys, store.Keys);
      store := MakeRoom(live);
      if |live| >= MaxPending {
        var gone :| Earliest(live, gone) && store == live - {gone};
        OneFewer(live, gone);
      }
      assert store[token := Pending(code, now)].Keys == store.Keys + {token};
      store := store[token := Pending(code, now)];
    }

    /**
     One try for each token, right or wrong; late or unknown tokens are refused. `upper` is `str.upper`,
     which the library defines for all of Unicode.
     */
    method Verify(token: string, code: string, upper: string -> string, now: real) returns (ok: bool)
      requires Valid()
      modifies this
      ensures Valid() && store == old(store) - {token}
      ensures ok <==>
        token in old(store) && now - old(store)[token].created <= 300.0
        && old(store)[token].code == upper(Json.Strip(code))
    {
      if token !in store {
        assert store - {token} == store;
        return false;
      }
      var entry := store[token];
      assert (store - {token}).Keys == store.Keys - {token};
      store := store - {token};
      if now - entry.created > Lifetime { return false; }
      return entry.code == upper(Json.Strip(code));
    }
  }

  predicate Earliest(store: map<string, Pending>, token: string) {
    token in store && forall other | other in store :: store[token].created <= store[other].created
  }

  lemma Subset(a: set<string>, b: set<string>)
    requires a <= b
    ensures |a| <= |b|
  {
    var rest := b - a;
    assert b == a + rest;
  }

  lemma {:induction false} HasEarliest(store: map<string, Pending>)
    requires store != map[]
    ensures exists token :: Earliest(store, token)
    decreases |store|
  {
    var token :| token in store;
    var rest := store - {token};
    assert rest.Keys == store.Keys - {token};
    assert forall k | k in store :: k == token || k in rest;
    if rest == map[] {
      assert Earliest(store, token);
    } else {
      HasEarliest(rest);
      var other :| Earliest(rest, other);
      assert Earliest(store, if store[other].created <= store[token].created then other else token);
    }
  }
}
