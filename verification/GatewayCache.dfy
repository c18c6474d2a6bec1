/** The gateway cache: the run loop's handlers over its own fields, one call at a time. */
module GatewayCache {
  import opened Prelude
  import opened GatewayTrace
  import opened GatewayLists
  import opened Histories

  class GatewayCache {
    var client: Client
    var cached: Cached
    var interest: map<GatewayType, Instant>
    var background: set<nat>
    var refreshing: map<nat, GatewayType>
    var cachedNymnodes: Option<Entry>
    var initialRefreshDone: bool
    var nextFetch: nat
    ghost var trace: Trace

    /** The fields are what the trace says; a type may be fetched more than once at a time. */
    ghost predicate Consistent()
      reads this
    {
      && WellFormed(trace)
      && Current(trace) == Some(client)
      && (forall t :: Serves(trace, Gateways(t), Lookup(t)))
      && Serves(trace, Nodes, cachedNymnodes)
      && background == refreshing.Keys
      && (forall f :: f in refreshing ==> Live(trace, f) && KeyOf(trace, f) == Some(Gateways(refreshing[f])))
      && nextFetch == NextFetch(trace)
      && (forall f :: f >= nextFetch ==> KeyOf(trace, f).None?)
    }

    /** And no type is being fetched twice in the background. */
    ghost predicate Valid()
      reads this
    {
      Consistent() && Injective(refreshing)
    }

    ghost predicate InOrder()
      reads this`trace, this`refreshing
    {
      Orderly(trace, refreshing)
    }

    function Lookup(t: GatewayType): Option<Entry>
      reads this`cached
    {
      if t in cached then Some(cached[t]) else None
    }

    function View(): Standing
      reads this`client, this`cached, this`interest, this`refreshing, this`cachedNymnodes, this`initialRefreshDone
    {
      Standing(client, cached, interest, refreshing, cachedNymnodes, initialRefreshDone)
    }

    constructor (c: Client)
      ensures Valid() && InOrder() && client == c && cached == map[] && cachedNymnodes.None? && background == {}
      ensures interest == map[] && !initialRefreshDone
    {
      client, cached, interest, background, refreshing := c, map[], map[], {}, map[];
      cachedNymnodes, initialRefreshDone, nextFetch := None, false, 0;
      trace := [Replaced(c)];
      new;
      Snoc([], Replaced(c));
      assert [] + [Replaced(c)] == trace;
    }

    /** A client call starts, with the client in place. */
    method BeginFetch(key: Key) returns (f: nat)
      requires Consistent()
      modifies this`nextFetch, this`trace
      ensures Consistent() && f == old(nextFetch) && nextFetch == f + 1
      ensures trace == old(trace) + [Begun(f, key, client)]
      ensures Live(trace, f) && KeyOf(trace, f) == Some(key) && !Overtaken(trace, f)
      ensures forall g :: g != f ==>
                (Live(trace, g) <==> old(Live(trace, g))) && KeyOf(trace, g) == old(KeyOf(trace, g))
      ensures forall g: nat :: g != f ==> (Overtaken(trace, g) <==> old(Overtaken(trace, g)))
      ensures old(AllNewest(trace)) ==> AllNewest(trace)
    {
      f := nextFetch;
      Snoc(trace, Begun(f, key, client));
      BegunOvertakesNone(trace, Begun(f, key, client));
      trace := trace + [Begun(f, key, client)];
      nextFetch := nextFetch + 1;
    }

    /** A result enters the cache. */
    method Insert(f: nat, t: GatewayType, list: List, at: Instant)
      requires Consistent() && Live(trace, f) && KeyOf(trace, f) == Some(Gateways(t))
      modifies this`cached, this`trace
      ensures Consistent() && cached == old(cached)[t := Entry(list, at)]
      ensures trace == old(trace) + [Stored(f, list, at)]
      ensures forall g :: (Live(trace, g) <==> old(Live(trace, g))) && KeyOf(trace, g) == old(KeyOf(trace, g))
      ensures forall g: nat :: Overtaken(trace, g) <==>
                old(Overtaken(trace, g)) || (g < f && old(KeyOf(trace, g)) == Some(Gateways(t)))
      ensures ServesNewest(trace, Gateways(t)) <==> !old(Overtaken(trace, f))
      ensures old(AllNewest(trace)) && !old(Overtaken(trace, f)) ==> AllNewest(trace)
    {
      Snoc(trace, Stored(f, list, at));
      StoredOvertakesOlder(trace, Stored(f, list, at));
      trace := trace + [Stored(f, list, at)];
      cached := cached[t := Entry(list, at)];
    }

    /** No task under way is left, so none of them can return any more. */
    method CancelBackgroundRefreshes()
      modifies this`background, this`refreshing
      ensures background == {} && refreshing == map[]
    {
      background, refreshing := {}, map[];
    }

    method ReplaceGatewayClient(c: Client)
      requires Valid()
      modifies this
      ensures Valid() && client == c && trace == old(trace) + [Replaced(c)]
      ensures c.thresholds != old(client).thresholds ==>
              cached == map[] && cachedNymnodes.None? && background == {}
      ensures c.thresholds == old(client).thresholds ==>
              cached == old(cached) && cachedNymnodes == old(cachedNymnodes) && refreshing == old(refreshing)
      ensures interest == old(interest) && initialRefreshDone == old(initialRefreshDone)
      ensures old(InOrder()) ==> InOrder()
    {
      Snoc(trace, Replaced(c));
      ResetKeepsOrder(trace, Replaced(c));
      trace := trace + [Replaced(c)];
      var oldThresholds := client.thresholds;
      client := c;
      if c.thresholds != oldThresholds {
        cached := map[];
        cachedNymnodes := None;
        CancelBackgroundRefreshes();
      }
    }

    method ClearCache()
      requires Valid()
      modifies this
      ensures Valid() && trace == old(trace) + [Cleared]
      ensures cached == map[] && cachedNymnodes.None? && background == {} && !initialRefreshDone
      ensures client == old(client) && interest == old(interest)
      ensures InOrder()
    {
      Snoc(trace, Cleared);
      ResetKeepsOrder(trace, Cleared);
      trace := trace + [Cleared];
      cached := map[];
      cachedNymnodes := None;
      CancelBackgroundRefreshes();
      initialRefreshDone := false;
    }

    method SpawnBackgroundRefresh(t: GatewayType)
      requires Consistent()
      modifies this`background, this`refreshing, this`nextFetch, this`trace
      ensures Consistent() && nextFetch == old(nextFetch) + 1
      ensures old(nextFetch) !in old(refreshing) && refreshing == old(refreshing)[old(nextFetch) := t]
      ensures trace == old(trace) + [Begun(old(nextFetch), Gateways(t), client)]
      ensures Kept(old(trace), old(refreshing), trace, refreshing)
    {
      var f := BeginFetch(Gateways(t));
      assert f !in refreshing;
      background := background + {f};
      refreshing := refreshing[f := t];
    }

    /** The first `i` of `wanted` have been started since the cache was as in `tr` and `m`. */
    ghost predicate Started(tr: Trace, m: map<nat, GatewayType>, base: nat, wanted: seq<GatewayType>, i: nat)
      requires i <= |wanted|
      reads this
    {
      && nextFetch == base + i
      && refreshing == m + BegunTasks(base, wanted[..i])
      && m.Keys !! BegunTasks(base, wanted[..i]).Keys
      && trace == tr + BegunEvents(base, wanted[..i], client)
      && Kept(tr, m, trace, refreshing)
    }

    method SpawnNext(ghost tr: Trace, ghost m: map<nat, GatewayType>, ghost base: nat, wanted: seq<GatewayType>, i: nat)
      requires Consistent() && i < |wanted| && Started(tr, m, base, wanted, i)
      modifies this`background, this`refreshing, this`nextFetch, this`trace
      ensures Consistent() && Started(tr, m, base, wanted, i + 1)
    {
      AddedTask(tr, m, base, wanted, i, client);
      SpawnBackgroundRefresh(wanted[i]);
      KeptTrans(tr, m, old(trace), old(refreshing), trace, refreshing);
    }

    method SpawnAll(wanted: seq<GatewayType>)
      requires Consistent()
      modifies this`background, this`refreshing, this`nextFetch, this`trace
      ensures Consistent() && Started(old(trace), old(refreshing), old(nextFetch), wanted, |wanted|)
    {
      for i := 0 to |wanted|
        invariant Consistent() && Started(old(trace), old(refreshing), old(nextFetch), wanted, i)
      {
        SpawnNext(old(trace), old(refreshing), old(nextFetch), wanted, i);
      }
    }

    /**
     * Starts one background fetch for each of `types` that has none, unless offline. A type named
     * twice is started twice, and only then can there be two fetches of a type under way.
     */
    method SpawnBackgroundRefreshes(types: seq<GatewayType>, online: bool)
      requires Consistent()
      modifies this`background, this`refreshing, this`nextFetch, this`trace
      ensures Consistent()
      ensures var started := if online then Without(types, old(refreshing).Values) else [];
              && trace == old(trace) + BegunEvents(old(nextFetch), started, client)
              && refreshing == old(refreshing) + BegunTasks(old(nextFetch), started)
              && old(refreshing).Keys !! BegunTasks(old(nextFetch), started).Keys
              && (Injective(refreshing) <==> Injective(old(refreshing)) && Distinct(started))
      ensures Kept(old(trace), old(refreshing), trace, refreshing)
    {
      var wanted := Without(types, refreshing.Values);
      if wanted == [] || !online {
        return;
      }
      SpawnAll(wanted);
      assert wanted[..|wanted|] == wanted;
      InjectiveAfter(old(refreshing), old(nextFetch), wanted);
    }

    /** A background task of the set ends; its result, if any, belongs to the type it was started for. */
    method StoreBackgroundRefresh(f: nat, joined: Joined, now: Instant)
      requires Valid() && f in background
      modifies this`background, this`refreshing, this`cached, this`trace
      ensures Valid() && f in old(refreshing) && refreshing == old(refreshing) - {f}
      ensures old(KeyOf(trace, f)) == Some(Gateways(old(refreshing)[f]))
      ensures if joined.Returned? && joined.result.Ok?
              then && cached == old(cached)[old(refreshing)[f] := Entry(joined.result.value, now)]
                   && trace == old(trace) + [Stored(f, joined.result.value, now)]
              else cached == old(cached) && trace == old(trace)
      ensures joined.Returned? && joined.result.Ok? ==>
              (ServesNewest(trace, Gateways(old(refreshing)[f])) <==> !old(Overtaken(trace, f)))
      ensures old(InOrder()) ==> InOrder()
    {
      background := background - {f};
      var t := refreshing[f];
      refreshing := refreshing - {f};
      match joined {
        case TaskFailed =>
        case Returned(result) =>
          match result {
            case Ok(list) => Insert(f, t, list, now);
            case Err(_) =>
          }
      }
    }

    /** Fetches a list the caller waits for; `answer` is what the client answers, at `at`. */
    method FetchGatewaysInline(t: GatewayType, online: bool, answer: Result<List, Error>, at: Instant)
      returns (r: Result<List, Error>)
      requires Valid()
      modifies this`cached, this`trace, this`nextFetch
      ensures Valid()
      ensures r == if online then answer else Err(Offline)
      ensures cached == if r.Ok? then old(cached)[t := Entry(r.value, at)] else old(cached)
      ensures trace == old(trace)
                       + (if online then [Begun(old(nextFetch), Gateways(t), client)] else [])
                       + (if r.Ok? then [Stored(old(nextFetch), r.value, at)] else [])
      ensures Passed(old(trace), trace, refreshing, if r.Ok? then {t} else {})
    {
      if !online {
        return Err(Offline);
      }
      var f := BeginFetch(Gateways(t));
      match answer {
        case Ok(list) => Insert(f, t, list, at);
        case Err(_) =>
      }
      r := answer;
    }

    /** Starts a background fetch of one type, unless one is under way or the network is down. */
    method SpawnOne(t: GatewayType, online: bool)
      requires Valid()
      modifies this`background, this`refreshing, this`nextFetch, this`trace
      ensures Valid() && Kept(old(trace), old(refreshing), trace, refreshing)
      ensures trace == old(trace) + if online && t !in old(refreshing).Values
                                    then [Begun(old(nextFetch), Gateways(t), client)] else []
      ensures refreshing.Values == old(refreshing).Values + if online then {t} else {}
    {
      SpawnBackgroundRefreshes([t], online);
      OneNamed(t, old(refreshing).Values);
      if online {
        BusyAfterBegun(old(refreshing), old(nextFetch), [t]);
      }
    }

    /** A list under thirty minutes old is served; from five minutes on it is also refreshed. */
    method ServeCached(t: GatewayType, now: Instant, online: bool) returns (list: List)
      requires Valid() && !Waits(cached, t, now)
      modifies this`trace, this`nextFetch, this`background, this`refreshing
      ensures Valid() && list == cached[t].list && FetchesOnly(old(trace), trace)
      ensures Kept(old(trace), old(refreshing), trace, refreshing)
      ensures IsCurrent(cached, t, now) ==> trace == old(trace) && refreshing == old(refreshing)
      ensures !IsCurrent(cached, t, now) ==>
              && trace == old(trace) + (if online && t !in old(refreshing).Values
                                        then [Begun(old(nextFetch), Gateways(t), client)] else [])
              && refreshing.Values == old(refreshing).Values + if online then {t} else {}
    {
      list := cached[t].list;
      if ForAge(Elapsed(cached[t].at, now)).ServeStaleAndRefresh? {
        SpawnOne(t, online);
      }
    }

    method RefreshGateways(t: GatewayType, now: Instant, online: bool, answer: Result<List, Error>, at: Instant)
      returns (r: Result<List, Error>)
      requires Valid()
      modifies this`cached, this`trace, this`nextFetch, this`background, this`refreshing
      ensures Valid() && FetchesOnly(old(trace), trace)
      ensures Waits(old(cached), t, now) ==>
              && r == (if online then answer else Err(Offline))
              && cached == (if r.Ok? then old(cached)[t := Entry(r.value, at)] else old(cached))
              && refreshing == old(refreshing)
              && Passed(old(trace), trace, refreshing, if r.Ok? then {t} else {})
      ensures !Waits(old(cached), t, now) ==>
              && r == Ok(old(cached)[t].list) && cached == old(cached)
              && Kept(old(trace), old(refreshing), trace, refreshing)
      ensures IsCurrent(old(cached), t, now) ==> trace == old(trace) && refreshing == old(refreshing)
      ensures ServedStale(old(cached), t, now) ==>
              && trace == old(trace) + (if online && t !in old(refreshing).Values
                                        then [Begun(old(nextFetch), Gateways(t), client)] else [])
              && refreshing.Values == old(refreshing).Values + if online then {t} else {}
    {
      if t !in cached || ForAge(Elapsed(cached[t].at, now)).FetchInline? {
        r := FetchGatewaysInline(t, online, answer, at);
      } else {
        var list := ServeCached(t, now, online);
        r := Ok(list);
      }
    }

    /**
     * A lookup answers from the cache whenever anything is cached afterwards: a list under
     * five minutes old without any fetch, one under thirty minutes while a background fetch
     * runs, and an older one only if the inline fetch was refused or failed.
     */
    method LookupGateways(
      t: GatewayType, asked: Instant, now: Instant, online: bool, answer: Result<List, Error>, at: Instant)
      returns (r: Result<List, Error>)
      requires Valid()
      modifies this`interest, this`cached, this`trace, this`nextFetch, this`background, this`refreshing
      ensures Valid() && interest == old(interest)[t := asked] && FetchesOnly(old(trace), trace)
      ensures r.Ok? <==> t in cached
      ensures r.Ok? ==> r.value == cached[t].list
      ensures r.Err? ==> t !in old(cached) && r == if online then answer else Err(Offline)
      ensures cached == if Delivers(old(cached), t, now, online, answer)
                        then old(cached)[t := Entry(answer.value, at)] else old(cached)
      ensures IsCurrent(old(cached), t, now) ==> trace == old(trace) && refreshing == old(refreshing)
      ensures r.Ok? && Elapsed(cached[t].at, now) >= MAX_STALE_SERVE_AGE && now <= at ==>
              cached == old(cached) && (!online || answer.Err?)
      ensures Waits(old(cached), t, now) ==> refreshing == old(refreshing)
      ensures refreshing.Values ==
              old(refreshing).Values + if online && ServedStale(old(cached), t, now) then {t} else {}
      ensures old(InOrder()) ==>
              (InOrder() <==> !(Delivers(old(cached), t, now, online, answer) && t in old(refreshing).Values))
    {
      interest := interest[t := asked];
      var refreshResult := RefreshGateways(t, now, online, answer, at);
      if Waits(old(cached), t, now) {
        PassedOrder(old(trace), trace, refreshing, if refreshResult.Ok? then {t} else {});
      }
      if t in cached {
        r := Ok(cached[t].list);
      } else {
        r := refreshResult;
      }
    }

    /** The periodic check fetches the stale lists in use in the background, each once, and nothing else. */
    method RefreshRecentlyUsed(now: Instant, online: bool)
      requires Valid()
      modifies this`background, this`refreshing, this`nextFetch, this`trace
      ensures Valid() && Kept(old(trace), old(refreshing), trace, refreshing)
      ensures var started := if online then Without(StaleInUse(cached, interest, now), old(refreshing).Values) else [];
              && trace == old(trace) + BegunEvents(old(nextFetch), started, client)
              && refreshing == old(refreshing) + BegunTasks(old(nextFetch), started)
      ensures online ==> refreshing.Values == old(refreshing).Values + set t | t in StaleInUse(cached, interest, now)
    {
      var types := StaleInUse(cached, interest, now);
      if types != [] {
        SpawnBackgroundRefreshes(types, online);
        if online {
          BusyAfterBegun(old(refreshing), old(nextFetch), types);
        }
      }
    }

    method BeginInline(types: seq<GatewayType>) returns (base: nat)
      requires Valid()
      modifies this`trace, this`nextFetch
      ensures Valid() && base == old(nextFetch) && InlineUnderWay(trace, base, types, |types|)
      ensures FetchesOnly(old(trace), trace) && Kept(old(trace), refreshing, trace, refreshing)
      ensures forall f :: base <= f < base + |types| ==> !Overtaken(trace, f)
      ensures forall g :: g in refreshing ==> g < base
    {
      base := nextFetch;
      var i := 0;
      while i < |types|
        invariant 0 <= i <= |types| && nextFetch == base + i
        invariant Valid() && InlineUnderWay(trace, base, types, i) && FetchesOnly(old(trace), trace)
        invariant Kept(old(trace), refreshing, trace, refreshing)
        invariant forall f :: base <= f < base + i ==> !Overtaken(trace, f)
      {
        var f := BeginFetch(Gateways(types[i]));
        i := i + 1;
      }
    }

    /** What the first `i` of `ends` have brought in, since the fetches from `base` on began at `tr`. */
    ghost predicate Merging(tr: Trace, base: nat, types: seq<GatewayType>, ends: seq<Completion>, i: nat)
      requires i <= |ends| && EndsFit(ends, |types|)
      reads this
    {
      && InlineUnderWay(trace, base, types, |types|)
      && (forall g :: g in refreshing ==> g < base)
      && (Distinct(types) ==> Overtaking(tr, trace, refreshing, base, types, Delivered(types, ends[..i])))
    }

    method MergeNext(ghost tr: Trace, base: nat, types: seq<GatewayType>, ends: seq<Completion>, i: nat)
      requires Valid() && i < |ends| && EndsFit(ends, |types|) && Merging(tr, base, types, ends, i)
      modifies this`cached, this`trace
      ensures Valid() && FetchesOnly(old(trace), trace) && Merging(tr, base, types, ends, i + 1)
      ensures cached == if Succeeded(ends[i])
                        then old(cached)[types[ends[i].task] := Entry(ends[i].joined.result.value, ends[i].at)]
                        else old(cached)
    {
      assert ends[..i + 1][..i] == ends[..i];
      if ends[i].joined.Returned? && ends[i].joined.result.Ok? {
        var task, list := ends[i].task, ends[i].joined.result.value;
        Insert(base + task, types[task], list, ends[i].at);
        if Distinct(types) {
          StoredInline(tr, old(trace), refreshing, base, types, Delivered(types, ends[..i]),
                       task, Stored(base + task, list, ends[i].at));
        }
      }
    }

    /** Fetches `types` together and waits for all; `ends` is how the fetches end, in that order. */
    method Refresh(types: seq<GatewayType>, online: bool, ends: seq<Completion>)
      requires Valid() && EndsFit(ends, |types|)
      modifies this`cached, this`trace, this`nextFetch
      ensures Valid()
      ensures !online ==> cached == old(cached) && trace == old(trace)
      ensures online ==> cached == Merged(old(cached), types, ends)
      ensures FetchesOnly(old(trace), trace)
      ensures online && Distinct(types) ==> Passed(old(trace), trace, refreshing, Delivered(types, ends))
    {
      if !online {
        return;
      }
      var base := BeginInline(types);
      var i := 0;
      while i < |ends|
        invariant 0 <= i <= |ends|
        invariant Valid() && Merging(old(trace), base, types, ends, i) && FetchesOnly(old(trace), trace)
        invariant cached == Merged(old(cached), types, ends[..i])
      {
        assert ends[..i + 1][..i] == ends[..i];
        MergeNext(old(trace), base, types, ends, i);
        i := i + 1;
      }
      assert ends[..i] == ends;
    }

    method RefreshAll(now: Instant, online: bool, ends: seq<Completion>)
      requires Valid()
      requires EndsFit(ends, |StaleTypes(cached, now)|)
      modifies this`cached, this`trace, this`nextFetch
      ensures Valid()
      ensures cached == if online then Merged(old(cached), StaleTypes(old(cached), now), ends) else old(cached)
      ensures FetchesOnly(old(trace), trace)
      ensures Passed(old(trace), trace, refreshing,
                     if online then Delivered(StaleTypes(old(cached), now), ends) else {})
      ensures old(InOrder()) && online ==>
              (InOrder() <==> Delivered(StaleTypes(old(cached), now), ends) !! refreshing.Values)
      ensures old(InOrder()) && !online ==> InOrder()
    {
      var types := StaleTypes(cached, now);
      if types != [] {
        Refresh(types, online, ends);
      }
      PassedOrder(old(trace), trace, refreshing, if online then Delivered(types, ends) else {});
    }

    method PerformInitialFetchOnce(now: Instant, online: bool, ends: seq<Completion>)
      requires Valid()
      requires EndsFit(ends, |StaleTypes(cached, now)|)
      modifies this`initialRefreshDone, this`cached, this`trace, this`nextFetch
      ensures Valid() && initialRefreshDone
      ensures cached == if online && !old(initialRefreshDone)
                        then Merged(old(cached), StaleTypes(old(cached), now), ends) else old(cached)
      ensures FetchesOnly(old(trace), trace)
      ensures old(InOrder()) && online && !old(initialRefreshDone) ==>
              (InOrder() <==> Delivered(StaleTypes(old(cached), now), ends) !! refreshing.Values)
      ensures old(InOrder()) && (!online || old(initialRefreshDone)) ==> InOrder()
    {
      if !initialRefreshDone {
        initialRefreshDone := true;
        RefreshAll(now, online, ends);
      }
    }

    method InsertNodes(f: nat, list: List, at: Instant)
      requires Valid() && Live(trace, f) && KeyOf(trace, f) == Some(Nodes)
      modifies this`cachedNymnodes, this`trace
      ensures Valid() && cachedNymnodes == Some(Entry(list, at)) && trace == old(trace) + [Stored(f, list, at)]
      ensures old(InOrder()) && !old(Overtaken(trace, f)) ==> InOrder()
    {
      Snoc(trace, Stored(f, list, at));
      StoredOvertakesOlder(trace, Stored(f, list, at));
      trace := trace + [Stored(f, list, at)];
      cachedNymnodes := Some(Entry(list, at));
    }

    /** The node list is served under five minutes old, or stale when offline; a failed fetch is an error. */
    method RefreshNymnodes(now: Instant, online: bool, answer: Result<List, Error>, at: Instant)
      returns (r: Result<List, Error>)
      requires Valid()
      modifies this`cachedNymnodes, this`trace, this`nextFetch
      ensures Valid()
      ensures old(cachedNymnodes).Some? && (Elapsed(old(cachedNymnodes).value.at, now) < MAX_CACHE_AGE || !online) ==>
              r == Ok(old(cachedNymnodes).value.list) && trace == old(trace) && cachedNymnodes == old(cachedNymnodes)
      ensures old(cachedNymnodes).None? && !online ==> r == Err(Offline) && cachedNymnodes.None? && trace == old(trace)
      ensures (old(cachedNymnodes).None? || Elapsed(old(cachedNymnodes).value.at, now) >= MAX_CACHE_AGE) && online ==>
              r == answer && cachedNymnodes == if answer.Ok? then Some(Entry(answer.value, at)) else old(cachedNymnodes)
      ensures FetchesOnly(old(trace), trace)
      ensures old(InOrder()) ==> InOrder()
    {
      if cachedNymnodes.Some? && Elapsed(cachedNymnodes.value.at, now) < MAX_CACHE_AGE {
        return Ok(cachedNymnodes.value.list);
      }
      if !online {
        return if cachedNymnodes.Some? then Ok(cachedNymnodes.value.list) else Err(Offline);
      }
      var f := BeginFetch(Nodes);
      match answer {
        case Ok(list) =>
          InsertNodes(f, list, at);
        case Err(_) =>
      }
      r := answer;
    }

    /** A turn that changes the client or clears the cache. */
    method HandleReset(turn: Turn)
      requires Valid() && (turn.Replacing? || turn.Clearing?)
      modifies this
      ensures Valid() && trace == old(trace) + ResetsOf(turn) && Handled(old(View()), turn, View())
      ensures turn.Clearing? ==> cachedNymnodes.None? && background == {}
      ensures old(InOrder()) ==> InOrder()
    {
      match turn {
        case Replacing(c) => ReplaceGatewayClient(c);
        case Clearing => ClearCache();
        case _ =>
      }
    }

    /** A turn of the periodic check. */
    method HandleTick(turn: Turn)
      requires Valid() && turn.RefreshTick?
      modifies this`background, this`refreshing, this`nextFetch, this`trace
      ensures Valid() && FetchesOnly(old(trace), trace) && Handled(old(View()), turn, View())
      ensures old(InOrder()) ==> InOrder()
    {
      RefreshRecentlyUsed(turn.now, turn.online);
    }

    /** A turn in which a background fetch joins. A task that is not in the set never does. */
    method HandleJoin(turn: Turn)
      requires Valid() && turn.JoinNext?
      modifies this`background, this`refreshing, this`cached, this`trace
      ensures Valid() && FetchesOnly(old(trace), trace) && Handled(old(View()), turn, View())
      ensures background == old(background) - {turn.fetch}
      ensures old(InOrder()) ==> InOrder()
    {
      if turn.fetch in background {
        StoreBackgroundRefresh(turn.fetch, turn.joined, turn.now);
      } else {
        assert refreshing - {turn.fetch} == refreshing;
      }
    }

    /** A turn that refreshes all stale lists. */
    method HandleRefresh(turn: Turn)
      requires Valid() && (turn.Refreshing? || turn.CameOnline?)
      modifies this`initialRefreshDone, this`cached, this`trace, this`nextFetch
      ensures Valid() && FetchesOnly(old(trace), trace) && Handled(old(View()), turn, View())
      ensures old(InOrder()) ==> (InOrder() <==> KeepsClear(old(View()), turn))
    {
      if EndsFit(turn.ends, |StaleTypes(cached, turn.now)|) {
        if turn.Refreshing? {
          RefreshAll(turn.now, turn.online, turn.ends);
        } else {
          PerformInitialFetchOnce(turn.now, turn.online, turn.ends);
        }
      }
    }

    /** A turn in which a list is looked up. */
    method HandleLookup(turn: Turn) returns (r: Result<List, Error>)
      requires Valid() && (turn.Looking? || turn.LookingForNodes?)
      modifies this
      ensures Valid() && FetchesOnly(old(trace), trace) && Handled(old(View()), turn, View())
      ensures Some(r) == ReplyTo(old(View()), turn)
      ensures old(InOrder()) ==> (InOrder() <==> KeepsClear(old(View()), turn))
    {
      if turn.Looking? {
        r := LookupGateways(turn.t, turn.asked, turn.now, turn.online, turn.answer, turn.at);
      } else {
        r := RefreshNymnodes(turn.now, turn.online, turn.answer, turn.at);
      }
    }

    /**
     * One turn of the run loop. It leaves the lists as `Handled` says, and keeps them in order
     * exactly if it fetches inline none that is being fetched in the background: such a background
     * fetch, begun earlier, would overwrite the newer list when it joins.
     */
    method Handle(turn: Turn) returns (reply: Option<Result<List, Error>>)
      requires Valid()
      modifies this
      ensures Valid() && Resets(trace) == Resets(old(trace)) + ResetsOf(turn) && Handled(old(View()), turn, View())
      ensures reply == ReplyTo(old(View()), turn)
      ensures turn.JoinNext? ==> background == old(background) - {turn.fetch}
      ensures turn.Clearing? ==> cachedNymnodes.None? && background == {}
      ensures old(InOrder()) ==> (InOrder() <==> KeepsClear(old(View()), turn))
    {
      reply := None;
      if turn.Replacing? || turn.Clearing? {
        ResetsSnoc(trace, ResetsOf(turn)[0]);
        HandleReset(turn);
      } else {
        match turn {
          case RefreshTick(_, _) => HandleTick(turn);
          case JoinNext(_, _, _) => HandleJoin(turn);
          case Refreshing(_, _, _) => HandleRefresh(turn);
          case CameOnline(_, _, _) => HandleRefresh(turn);
          case Looking(_, _, _, _, _, _) =>
            var r := HandleLookup(turn);
            reply := Some(r);
          case LookingForNodes(_, _, _, _) =>
            var r := HandleLookup(turn);
            reply := Some(r);
          case _ =>
        }
        FetchesReset(old(trace), trace);
      }
    }

    /** Everything since the cache stood at `s` and the trace was `tr` is on the trail. */
    ghost predicate Followed(s: Standing, tr: Trace, trail: Trail)
      reads this
    {
      && LeadsTo(trail, View()) && Origin(trail, View()) == s
      && Resets(trace) == Resets(tr) + AskedResets(trail)
    }

    /** Takes a turn and notes it, with what the cache stood at. */
    method HandleNext(ghost s: Standing, ghost tr: Trace, ghost trail: Trail, turn: Turn)
      returns (reply: Option<Result<List, Error>>, ghost trail': Trail)
      requires Valid() && Followed(s, tr, trail)
      modifies this
      ensures Valid() && Followed(s, tr, trail')
      ensures trail' == Then(trail, (old(View()), turn)) && reply == ReplyTo(old(View()), turn)
      ensures old(InOrder()) && KeptClear(trail') ==> InOrder()
    {
      trail' := Then(trail, (View(), turn));
      Appended(Resets(trace), Resets(tr), AskedResets(trail), ResetsOf(turn));
      reply := Handle(turn);
    }

    /**
     * Any sequence of turns, whatever the directory, the clock and the network do. The changes of
     * client and the clears that the trace speaks of are those asked for, all of them and in order.
     * If no turn fetches inline a list that is then being fetched in the background, every list
     * is the newest.
     */
    method Run(turns: seq<Turn>) returns (replies: seq<Option<Result<List, Error>>>, ghost trail: Trail)
      requires Valid()
      modifies this
      ensures Valid() && Followed(old(View()), old(trace), trail) && TurnsOf(trail) == turns
      ensures replies == RepliesOf(trail)
      ensures old(InOrder()) && KeptClear(trail) ==> InOrder() && AllNewest(trace)
    {
      trail, replies := Start, [];
      for i := 0 to |turns|
        invariant Valid() && Followed(old(View()), old(trace), trail)
        invariant TurnsOf(trail) == turns[..i] && replies == RepliesOf(trail)
        invariant old(InOrder()) && KeptClear(trail) ==> InOrder()
      {
        var reply;
        reply, trail := HandleNext(old(View()), old(trace), trail, turns[i]);
        replies := replies + [reply];
        TurnTaken(turns, i);
      }
      assert turns[..|turns|] == turns;
    }
  }

  /**
   * In every state of the cache, a cached list is what a fetch of that type returned: one
   * begun after the last clear, by a client with the thresholds of the client now in place.
   */
  lemma CachedListProvenance(c: GatewayCache, t: GatewayType)
    requires c.Valid() && t in c.cached
    ensures exists i, j ::
              && 0 <= i < j < |c.trace| && c.trace[i].Begun? && c.trace[j].Stored?
              && c.trace[i].fetch == c.trace[j].fetch && c.trace[i].key == Gateways(t)
              && c.cached[t] == Entry(c.trace[j].list, c.trace[j].at)
              && c.trace[i].client.thresholds == c.client.thresholds
              && (forall m :: i < m < |c.trace| ==> !c.trace[m].Cleared?)
  {
    assert Serves(c.trace, Gateways(t), c.Lookup(t));
    ServedListIsCurrent(c.trace, Gateways(t));
  }

  /**
   * Every task of the background set is known to `refreshing` and the other way round, no two
   * are for one type, and each was begun after the last clear with the present thresholds.
   */
  lemma BackgroundFetchProvenance(c: GatewayCache, f: nat)
    requires c.Valid() && f in c.background
    ensures f in c.refreshing && forall g :: g in c.background && g != f ==> c.refreshing[g] != c.refreshing[f]
    ensures exists i ::
              && 0 <= i < |c.trace| && c.trace[i].Begun? && c.trace[i].fetch == f
              && c.trace[i].key == Gateways(c.refreshing[f])
              && c.trace[i].client.thresholds == c.client.thresholds
              && (forall m :: i < m < |c.trace| ==> !c.trace[m].Cleared?)
  {
    LiveFetchIsCurrent(c.trace, f);
    assert c.trace[BeginIndex(c.trace, f)].fetch == f;
  }

  /** The ends of a refresh of all three lists in which only the last brings one. */
  function OnlyLast(list: List, at: Instant): seq<Completion> {
    [Completion(0, TaskFailed, at), Completion(1, TaskFailed, at), Completion(2, Returned(Ok(list)), at)]
  }

  lemma OnlyLastDelivers(list: List, at: Instant)
    ensures EndsFit(OnlyLast(list, at), 3) && Delivered(ALL_TYPES, OnlyLast(list, at)) == {Wg}
  {
    var ends := OnlyLast(list, at);
    assert ends[..1][..0] == [] && ends[..2][..1] == ends[..1];
    assert Delivered(ALL_TYPES, ends[..1][..0]) == {};
    assert Delivered(ALL_TYPES, ends[..1]) == {};
    assert Delivered(ALL_TYPES, ends[..2]) == Delivered(ALL_TYPES, ends[..1]);
    assert ALL_TYPES[2] == Wg;
  }

  /** A list is served stale, while a background fetch of it begins. */
  method ServeStale(client: Client, list: List, at: Instant) returns (c: GatewayCache, f: nat)
    ensures fresh(c) && c.Valid() && c.cached == map[Wg := Entry(list, at)]
    ensures f in c.background && f in c.refreshing && c.refreshing[f] == Wg && c.InOrder()
  {
    c := new GatewayCache(client);
    var later := at + MAX_CACHE_AGE;
    var _ := c.LookupGateways(Wg, at, at, true, Ok(list), at);
    var _ := c.LookupGateways(Wg, later, later, true, Ok(list), later);
    f :| f in c.refreshing && c.refreshing[f] == Wg;
  }

  /**
   * A run in which an older list replaces a newer one, with a later time: a stale list is served
   * while its background fetch runs, a refresh of all lists overtakes that fetch, and then it joins.
   */
  method OlderListReplacesNewer(client: Client, older: List, newer: List, at: Instant) returns (c: GatewayCache)
    ensures fresh(c) && c.Valid()
    ensures Wg in c.cached && c.cached[Wg] == Entry(older, at + MAX_CACHE_AGE + 2)
    ensures !ServesNewest(c.trace, Gateways(Wg))
  {
    var later := at + MAX_CACHE_AGE;
    var f;
    c, f := ServeStale(client, older, at);
    AllStale(c, later);
    OnlyLastDelivers(newer, later + 1);
    c.RefreshAll(later, true, OnlyLast(newer, later + 1));
    assert Overtaken(c.trace, f);
    c.StoreBackgroundRefresh(f, Returned(Ok(older)), later + 2);
  }

  lemma {:induction false} WithoutNothing(types: seq<GatewayType>)
    ensures Without(types, {}) == types
  {
    if types != [] { WithoutNothing(types[1..]); }
  }

  lemma AllStale(c: GatewayCache, now: Instant)
    requires forall t :: !IsCurrent(c.cached, t, now)
    ensures StaleTypes(c.cached, now) == ALL_TYPES
  {
    assert (set t | t in ALL_TYPES && IsCurrent(c.cached, t, now)) == {};
    WithoutNothing(ALL_TYPES);
  }
}
