/** The values the gateway cache works on: lists by type, turns of its loop, and fetches under way. */
module GatewayLists {
  import opened Prelude
  import opened GatewayTrace
  import opened Histories

  // Times are in milliseconds.
  const MAX_CACHE_AGE: Duration := 5 * 60 * 1000
  const MAX_STALE_SERVE_AGE: Duration := 30 * 60 * 1000
  const LOOKUP_INTEREST_WINDOW: Duration := 30 * 60 * 1000

  const ALL_TYPES: seq<GatewayType> := [MixnetEntry, MixnetExit, Wg]

  datatype LookupAction = UseCached | ServeStaleAndRefresh | FetchInline

  function ForAge(age: Duration): LookupAction {
    if age < MAX_CACHE_AGE then UseCached
    else if age < MAX_STALE_SERVE_AGE then ServeStaleAndRefresh
    else FetchInline
  }

  datatype Error = Offline | Directory(code: nat)

  datatype Entry = Entry(list: List, at: Instant)

  type Cached = map<GatewayType, Entry>

  /** How a spawned task ends: it panicked, or it returned what the client answered. */
  datatype Joined = TaskFailed | Returned(result: Result<List, Error>)

  /** The end of the `task`-th of several tasks spawned together. */
  datatype Completion = Completion(task: nat, joined: Joined, at: Instant)

  /** What wakes the run loop, with everything the outside answers while it is handled. */
  datatype Turn =
    | RefreshTick(now: Instant, online: bool)
    | JoinNext(fetch: nat, joined: Joined, now: Instant)
    | Refreshing(now: Instant, online: bool, ends: seq<Completion>)
    | CameOnline(now: Instant, online: bool, ends: seq<Completion>)
    | Looking(t: GatewayType, asked: Instant, now: Instant, online: bool, answer: Result<List, Error>, at: Instant)
    | LookingForNodes(now: Instant, online: bool, answer: Result<List, Error>, at: Instant)
    | Replacing(client: Client)
    | Clearing

  function ResetsOf(turn: Turn): seq<Event> {
    match turn
    case Replacing(c) => [Replaced(c)]
    case Clearing => [Cleared]
    case _ => []
  }

  predicate Succeeded(end: Completion) {
    end.joined.Returned? && end.joined.result.Ok?
  }

  /** Each of `n` tasks spawned together ends at most once. */
  predicate EndsFit(ends: seq<Completion>, n: nat) {
    && (forall i :: 0 <= i < |ends| ==> ends[i].task < n)
    && (forall i, j :: 0 <= i < j < |ends| ==> ends[i].task != ends[j].task)
  }

  function Elapsed(at: Instant, now: Instant): Duration {
    if at <= now then now - at else 0
  }

  predicate Injective(m: map<nat, GatewayType>) {
    forall f, g :: f in m && g in m && f != g ==> m[f] != m[g]
  }

  /** Every list served is the newest stored, and no background fetch is behind one stored already. */
  ghost predicate Orderly(tr: Trace, m: map<nat, GatewayType>) {
    AllNewest(tr) && forall f :: f in m ==> !Overtaken(tr, f)
  }

  /** Between `tr` and `tr'` nothing was overtaken of `m`, or of what `m'` adds to it. */
  ghost predicate Kept(tr: Trace, m: map<nat, GatewayType>, tr': Trace, m': map<nat, GatewayType>) {
    && (AllNewest(tr) ==> AllNewest(tr'))
    && forall g :: g in m' ==> (Overtaken(tr', g) <==> g in m && Overtaken(tr, g))
  }

  /** Between `tr` and `tr'` exactly the fetches of `m` for the types delivered were overtaken. */
  ghost predicate Passed(tr: Trace, tr': Trace, m: map<nat, GatewayType>, delivered: set<GatewayType>) {
    && (AllNewest(tr) ==> AllNewest(tr'))
    && forall g :: g in m ==> (Overtaken(tr', g) <==> Overtaken(tr, g) || m[g] in delivered)
  }

  predicate Distinct<T(==)>(s: seq<T>) {
    forall i, j :: 0 <= i < j < |s| ==> s[i] != s[j]
  }

  /** `entry` is what the trace says is to be served for `key`. */
  predicate Serves(tr: Trace, key: Key, entry: Option<Entry>) {
    match LatestStore(tr, key)
    case None => entry.None?
    case Some(j) => entry == Some(Entry(tr[j].list, tr[j].at))
  }

  function Without(types: seq<GatewayType>, excluded: set<GatewayType>): (r: seq<GatewayType>)
    ensures forall t :: t in r <==> t in types && t !in excluded
    ensures Distinct(types) ==> Distinct(r)
  {
    if types == [] then []
    else if types[0] in excluded then Without(types[1..], excluded)
    else [types[0]] + Without(types[1..], excluded)
  }

  lemma AllTypesListed()
    ensures forall t: GatewayType :: t in ALL_TYPES
  {
    assert ALL_TYPES[0] == MixnetEntry && ALL_TYPES[1] == MixnetExit && ALL_TYPES[2] == Wg;
    forall t: GatewayType ensures t in ALL_TYPES {
      match t
      case MixnetEntry =>
      case MixnetExit =>
      case Wg =>
    }
  }

  /** The cache after the fetches of `types` ended as in `ends`: each list that came replaces the old one. */
  function Merged(cached: Cached, types: seq<GatewayType>, ends: seq<Completion>): Cached
    requires forall i :: 0 <= i < |ends| ==> ends[i].task < |types|
  {
    if ends == [] then cached
    else
      var n := |ends| - 1;
      var before, end := Merged(cached, types, ends[..n]), ends[n];
      if Succeeded(end)
      then before[types[end.task] := Entry(end.joined.result.value, end.at)]
      else before
  }

  /** The types whose fetch brought a list. */
  function Delivered(types: seq<GatewayType>, ends: seq<Completion>): set<GatewayType>
    requires forall i :: 0 <= i < |ends| ==> ends[i].task < |types|
  {
    if ends == [] then {}
    else
      var n := |ends| - 1;
      Delivered(types, ends[..n]) + if Succeeded(ends[n]) then {types[ends[n].task]} else {}
  }

  /** The order in which fetches end does not matter: each type gets the list of its own fetch, or keeps the old one. */
  lemma {:induction false} MergedByType(
    cached: Cached, types: seq<GatewayType>, ends: seq<Completion>, t: GatewayType)
    requires Distinct(types)
    requires EndsFit(ends, |types|)
    ensures var m := Merged(cached, types, ends);
            && (forall i :: 0 <= i < |ends| && types[ends[i].task] == t && Succeeded(ends[i]) ==>
                  t in m && m[t] == Entry(ends[i].joined.result.value, ends[i].at))
            && ((forall i :: 0 <= i < |ends| && types[ends[i].task] == t ==> !Succeeded(ends[i])) ==>
                  (t in m <==> t in cached) && (t in m ==> m[t] == cached[t]))
    decreases |ends|
  {
    if ends != [] {
      var n := |ends| - 1;
      MergedByType(cached, types, ends[..n], t);
      if types[ends[n].task] == t {
        forall i | 0 <= i < n ensures types[ends[i].task] != t { assert ends[i].task != ends[n].task; }
      }
    }
  }

  /** The fetches `base`, `base + 1`, ... of the types listed, as the trace records their start. */
  function BegunEvents(base: nat, types: seq<GatewayType>, c: Client): Trace {
    seq(|types|, k requires 0 <= k < |types| => Begun(base + k, Gateways(types[k]), c))
  }

  function BegunTasks(base: nat, types: seq<GatewayType>): (m: map<nat, GatewayType>)
    ensures forall f :: f in m <==> base <= f < base + |types|
    ensures forall f :: f in m ==> m[f] == types[f - base]
  {
    if types == [] then map[]
    else
      var n := |types| - 1;
      BegunTasks(base, types[..n])[base + n := types[n]]
  }

  lemma AddedTask(tr: Trace, m: map<nat, GatewayType>, base: nat, types: seq<GatewayType>, i: nat, c: Client)
    requires i < |types|
    ensures tr + BegunEvents(base, types[..i + 1], c) ==
            tr + BegunEvents(base, types[..i], c) + [Begun(base + i, Gateways(types[i]), c)]
    ensures m + BegunTasks(base, types[..i + 1]) == (m + BegunTasks(base, types[..i]))[base + i := types[i]]
    ensures BegunTasks(base, types[..i + 1]).Keys == BegunTasks(base, types[..i]).Keys + {base + i}
  {
    assert types[..i + 1][..i] == types[..i];
  }

  lemma AfterBegun(m: map<nat, GatewayType>, base: nat, started: seq<GatewayType>, f: nat)
    requires m.Keys !! BegunTasks(base, started).Keys
    ensures var m' := m + BegunTasks(base, started);
            && (f in m' <==> f in m || base <= f < base + |started|)
            && (f in m ==> m'[f] == m[f] && m[f] in m.Values)
            && (base <= f < base + |started| ==> m'[f] == started[f - base] && f !in m)
  {
    assert f in BegunTasks(base, started) <==> base <= f < base + |started|;
  }

  lemma OneNamed(t: GatewayType, busy: set<GatewayType>)
    ensures Without([t], busy) == if t in busy then [] else [t]
    ensures (set u | u in [t]) == {t}
  {
  }

  lemma BusyOnlyNamed(m: map<nat, GatewayType>, base: nat, types: seq<GatewayType>, t: GatewayType)
    requires m.Keys !! BegunTasks(base, Without(types, m.Values)).Keys
    requires t in (m + BegunTasks(base, Without(types, m.Values))).Values
    ensures t in m.Values || t in types
  {
    var started := Without(types, m.Values);
    var m' := m + BegunTasks(base, started);
    var f :| f in m' && m'[f] == t;
    AfterBegun(m, base, started, f);
  }

  lemma InValues(m: map<nat, GatewayType>, f: nat)
    requires f in m
    ensures m[f] in m.Values
  {
  }

  lemma BusyAllNamed(m: map<nat, GatewayType>, base: nat, started: seq<GatewayType>, t: GatewayType)
    requires m.Keys !! BegunTasks(base, started).Keys
    requires t in m.Values || t in started
    ensures t in (m + BegunTasks(base, started)).Values
  {
    var f: nat;
    if t in m.Values {
      f :| f in m && m[f] == t;
    } else {
      var k :| 0 <= k < |started| && started[k] == t;
      f := base + k;
    }
    AfterBegun(m, base, started, f);
    InValues(m + BegunTasks(base, started), f);
  }

  /** Every type named is being fetched once those without a fetch have been started. */
  lemma BusyAfterBegun(m: map<nat, GatewayType>, base: nat, types: seq<GatewayType>)
    requires m.Keys !! BegunTasks(base, Without(types, m.Values)).Keys
    ensures (m + BegunTasks(base, Without(types, m.Values))).Values == m.Values + set t | t in types
  {
    var busy := (m + BegunTasks(base, Without(types, m.Values))).Values;
    forall t ensures t in busy <==> t in m.Values || t in types {
      if t in busy { BusyOnlyNamed(m, base, types, t); }
      if t in m.Values || t in types { BusyAllNamed(m, base, Without(types, m.Values), t); }
    }
  }

  lemma DistinctTypesBegun(m: map<nat, GatewayType>, base: nat, started: seq<GatewayType>)
    requires m.Keys !! BegunTasks(base, started).Keys && forall t :: t in started ==> t !in m.Values
    requires Injective(m) && Distinct(started)
    ensures Injective(m + BegunTasks(base, started))
  {
    var m' := m + BegunTasks(base, started);
    forall f, g | f in m' && g in m' && f != g ensures m'[f] != m'[g] {
      AfterBegun(m, base, started, f);
      AfterBegun(m, base, started, g);
    }
  }

  lemma RepeatedTypeBegun(m: map<nat, GatewayType>, base: nat, started: seq<GatewayType>)
    requires m.Keys !! BegunTasks(base, started).Keys
    requires Injective(m + BegunTasks(base, started))
    ensures Injective(m) && Distinct(started)
  {
    var m' := m + BegunTasks(base, started);
    forall f, g | f in m && g in m && f != g ensures m[f] != m[g] {
      assert m'[f] != m'[g];
    }
    forall i, j | 0 <= i < j < |started| ensures started[i] != started[j] {
      BegunApart(m, base, started, i, j);
    }
  }

  lemma BegunApart(m: map<nat, GatewayType>, base: nat, started: seq<GatewayType>, i: nat, j: nat)
    requires m.Keys !! BegunTasks(base, started).Keys && i < j < |started|
    requires Injective(m + BegunTasks(base, started))
    ensures started[i] != started[j]
  {
    AfterBegun(m, base, started, base + i);
    AfterBegun(m, base, started, base + j);
  }

  lemma InjectiveAfter(m: map<nat, GatewayType>, base: nat, started: seq<GatewayType>)
    requires m.Keys !! BegunTasks(base, started).Keys && forall t :: t in started ==> t !in m.Values
    ensures Injective(m + BegunTasks(base, started)) <==> Injective(m) && Distinct(started)
  {
    if Injective(m) && Distinct(started) { DistinctTypesBegun(m, base, started); }
    if Injective(m + BegunTasks(base, started)) { RepeatedTypeBegun(m, base, started); }
  }

  /** The inline fetches `base`, `base + 1`, ... of the first `n` of `types` are under way. */
  ghost predicate InlineUnderWay(tr: Trace, base: nat, types: seq<GatewayType>, n: nat)
    requires n <= |types|
  {
    forall f :: base <= f < base + n ==> Live(tr, f) && KeyOf(tr, f) == Some(Gateways(types[f - base]))
  }

  /** Of the fetches under way since `tr`, the inline ones are behind nothing, and `m` is behind what was delivered. */
  ghost predicate Overtaking(
    tr: Trace, tr': Trace, m: map<nat, GatewayType>, base: nat, types: seq<GatewayType>, delivered: set<GatewayType>)
  {
    && (forall f :: base <= f < base + |types| ==> !Overtaken(tr', f))
    && Passed(tr, tr', m, delivered)
  }

  lemma StoredInline(
    tr: Trace, tr': Trace, m: map<nat, GatewayType>, base: nat, types: seq<GatewayType>, delivered: set<GatewayType>,
    task: nat, e: Event)
    requires task < |types| && Distinct(types) && InlineUnderWay(tr', base, types, |types|)
    requires forall g :: g in m ==> g < base && KeyOf(tr', g) == Some(Gateways(m[g]))
    requires Overtaking(tr, tr', m, base, types, delivered)
    requires e.Stored? && e.fetch == base + task && WellFormed(tr') && WellFormed(tr' + [e])
    ensures Overtaking(tr, tr' + [e], m, base, types, delivered + {types[task]})
  {
    StoredOvertakesOlder(tr', e);
    forall f | base <= f < base + |types| ensures !Overtaken(tr' + [e], f) {
      if f < e.fetch { assert types[f - base] != types[task]; }
    }
  }

  lemma PassedOrder(tr: Trace, tr': Trace, m: map<nat, GatewayType>, delivered: set<GatewayType>)
    requires Passed(tr, tr', m, delivered)
    ensures Orderly(tr, m) ==> (Orderly(tr', m) <==> delivered !! m.Values)
  {
    if t :| t in delivered && t in m.Values {
      var f :| f in m && m[f] == t;
      assert Overtaken(tr', f);
    }
  }

  lemma KeptTrans(
    tr: Trace, m: map<nat, GatewayType>, tr1: Trace, m1: map<nat, GatewayType>, tr2: Trace, m2: map<nat, GatewayType>)
    requires Kept(tr, m, tr1, m1) && Kept(tr1, m1, tr2, m2) && m.Keys <= m1.Keys <= m2.Keys
    ensures Kept(tr, m, tr2, m2)
  {
  }

  // ---- What a turn does to the lists ----

  predicate IsCurrent(cached: Cached, t: GatewayType, now: Instant) {
    t in cached && Elapsed(cached[t].at, now) < MAX_CACHE_AGE
  }

  predicate RecentlyUsed(interest: map<GatewayType, Instant>, t: GatewayType, now: Instant) {
    t in interest && Elapsed(interest[t], now) < LOOKUP_INTEREST_WINDOW
  }

  /** The gateway types whose list is missing or stale, in declaration order. */
  function StaleTypes(cached: Cached, now: Instant): (r: seq<GatewayType>)
    ensures forall t :: t in r <==> !IsCurrent(cached, t, now)
    ensures Distinct(r)
  {
    var skipped := set t | t in ALL_TYPES && IsCurrent(cached, t, now);
    AllTypesListed();
    Without(ALL_TYPES, skipped)
  }

  /** The lists worth keeping warm: stale, and asked for in the last half hour. */
  function StaleInUse(cached: Cached, interest: map<GatewayType, Instant>, now: Instant): (r: seq<GatewayType>)
    ensures forall t :: t in r <==> !IsCurrent(cached, t, now) && RecentlyUsed(interest, t, now)
    ensures Distinct(r)
  {
    var skipped := set t | t in ALL_TYPES && (IsCurrent(cached, t, now) || !RecentlyUsed(interest, t, now));
    AllTypesListed();
    Without(ALL_TYPES, skipped)
  }

  /** A lookup of `t` waits for a fetch: nothing is cached, or what is has been there half an hour. */
  predicate Waits(cached: Cached, t: GatewayType, now: Instant) {
    t !in cached || Elapsed(cached[t].at, now) >= MAX_STALE_SERVE_AGE
  }

  predicate Delivers(cached: Cached, t: GatewayType, now: Instant, online: bool, answer: Result<List, Error>) {
    Waits(cached, t, now) && online && answer.Ok?
  }

  /** A lookup of `t` is answered with a list that is refreshed in the background. */
  predicate ServedStale(cached: Cached, t: GatewayType, now: Instant) {
    !Waits(cached, t, now) && !IsCurrent(cached, t, now)
  }

  /** The fields of the cache that decide what a turn does. */
  datatype Standing = Standing(
    client: Client,
    cached: Cached,
    interest: map<GatewayType, Instant>,
    refreshing: map<nat, GatewayType>,
    cachedNymnodes: Option<Entry>,
    initialRefreshDone: bool)

  /** The types whose list a turn fetches while the loop waits for it. */
  function DeliveredBy(s: Standing, turn: Turn): set<GatewayType> {
    match turn
    case Looking(t, _, now, online, answer, _) => if Delivers(s.cached, t, now, online, answer) then {t} else {}
    case Refreshing(now, online, ends) =>
      if online && EndsFit(ends, |StaleTypes(s.cached, now)|) then Delivered(StaleTypes(s.cached, now), ends) else {}
    case CameOnline(now, online, ends) =>
      if online && !s.initialRefreshDone && EndsFit(ends, |StaleTypes(s.cached, now)|)
      then Delivered(StaleTypes(s.cached, now), ends) else {}
    case _ => {}
  }

  /** The lists after a turn. */
  function CachedAfter(s: Standing, turn: Turn): Cached {
    match turn
    case JoinNext(f, joined, now) =>
      if f in s.refreshing && joined.Returned? && joined.result.Ok?
      then s.cached[s.refreshing[f] := Entry(joined.result.value, now)] else s.cached
    case Looking(t, _, now, online, answer, at) =>
      if Delivers(s.cached, t, now, online, answer) then s.cached[t := Entry(answer.value, at)] else s.cached
    case Refreshing(now, online, ends) =>
      if online && EndsFit(ends, |StaleTypes(s.cached, now)|)
      then Merged(s.cached, StaleTypes(s.cached, now), ends) else s.cached
    case CameOnline(now, online, ends) =>
      if online && !s.initialRefreshDone && EndsFit(ends, |StaleTypes(s.cached, now)|)
      then Merged(s.cached, StaleTypes(s.cached, now), ends) else s.cached
    case Replacing(c) => if c.thresholds != s.client.thresholds then map[] else s.cached
    case Clearing => map[]
    case _ => s.cached
  }

  predicate NodesCurrent(s: Standing, now: Instant) {
    s.cachedNymnodes.Some? && Elapsed(s.cachedNymnodes.value.at, now) < MAX_CACHE_AGE
  }

  /** The node list after a turn. */
  function NodesAfter(s: Standing, turn: Turn): Option<Entry> {
    match turn
    case LookingForNodes(now, online, answer, at) =>
      if online && answer.Ok? && !NodesCurrent(s, now) then Some(Entry(answer.value, at)) else s.cachedNymnodes
    case Replacing(c) => if c.thresholds != s.client.thresholds then None else s.cachedNymnodes
    case Clearing => None
    case _ => s.cachedNymnodes
  }

  /** What a turn answers, if it was asked something. */
  function ReplyTo(s: Standing, turn: Turn): Option<Result<List, Error>> {
    match turn
    case Looking(t, _, _, online, answer, _) =>
      Some(if t in CachedAfter(s, turn) then Ok(CachedAfter(s, turn)[t].list)
           else if online then answer else Err(Offline))
    case LookingForNodes(now, online, answer, _) =>
      Some(if NodesCurrent(s, now) || (!online && s.cachedNymnodes.Some?) then Ok(s.cachedNymnodes.value.list)
           else if online then answer else Err(Offline))
    case _ => None
  }

  /** The types being fetched in the background after a turn. */
  function BusyAfter(s: Standing, turn: Turn): set<GatewayType> {
    var busy := s.refreshing.Values;
    match turn
    case RefreshTick(now, online) =>
      if online then busy + set t | t in StaleInUse(s.cached, s.interest, now) else busy
    case JoinNext(f, _, _) => (s.refreshing - {f}).Values
    case Looking(t, _, now, online, _, _) => if online && ServedStale(s.cached, t, now) then busy + {t} else busy
    case Replacing(c) => if c.thresholds != s.client.thresholds then {} else busy
    case Clearing => {}
    case _ => busy
  }

  /** What a turn leads to; the numbers of the fetches it begins are left open. */
  predicate Handled(s: Standing, turn: Turn, s': Standing) {
    && s'.client == (if turn.Replacing? then turn.client else s.client)
    && s'.cached == CachedAfter(s, turn)
    && s'.interest == (if turn.Looking? then s.interest[turn.t := turn.asked] else s.interest)
    && s'.refreshing.Values == BusyAfter(s, turn)
    && s'.cachedNymnodes == NodesAfter(s, turn)
    && s'.initialRefreshDone ==
       if turn.Clearing? then false
       else s.initialRefreshDone || (turn.CameOnline? && EndsFit(turn.ends, |StaleTypes(s.cached, turn.now)|))
  }

  /** What a lookup does, by the age of the list. */
  lemma LookupMeans(s: Standing, turn: Turn, s': Standing)
    requires turn.Looking? && Handled(s, turn, s')
    ensures var t := turn.t;
            var age := if t in s.cached && s.cached[t].at <= turn.now then turn.now - s.cached[t].at else 0;
            && s'.client == s.client && s'.cachedNymnodes == s.cachedNymnodes
            && s'.initialRefreshDone == s.initialRefreshDone && s'.interest == s.interest[t := turn.asked]
            && (t in s.cached && age < 5 * 60 * 1000 ==>
                  && ReplyTo(s, turn) == Some(Ok(s.cached[t].list)) && s'.cached == s.cached
                  && s'.refreshing.Values == s.refreshing.Values)
            && (t in s.cached && 5 * 60 * 1000 <= age < 30 * 60 * 1000 ==>
                  && ReplyTo(s, turn) == Some(Ok(s.cached[t].list)) && s'.cached == s.cached
                  && s'.refreshing.Values == s.refreshing.Values + if turn.online then {t} else {})
            && (t !in s.cached || age >= 30 * 60 * 1000 ==>
                  && s'.refreshing.Values == s.refreshing.Values
                  && (turn.online && turn.answer.Ok? ==>
                        && ReplyTo(s, turn) == Some(turn.answer)
                        && s'.cached == s.cached[t := Entry(turn.answer.value, turn.at)])
                  && (!(turn.online && turn.answer.Ok?) ==>
                        && s'.cached == s.cached
                        && ReplyTo(s, turn) == Some(if t in s.cached then Ok(s.cached[t].list)
                                                    else if turn.online then turn.answer else Err(Offline))))
  {
  }

  /** What a lookup of the nodes does: fresh, stale offline, none offline, or fetched, with either answer. */
  lemma NodesMean(s: Standing, turn: Turn, s': Standing)
    requires turn.LookingForNodes? && Handled(s, turn, s')
    ensures var age := if s.cachedNymnodes.Some? && s.cachedNymnodes.value.at <= turn.now
                       then turn.now - s.cachedNymnodes.value.at else 0;
            var current := s.cachedNymnodes.Some? && age < 5 * 60 * 1000;
            && s' == s.(cachedNymnodes := s'.cachedNymnodes, refreshing := s'.refreshing)
            && s'.refreshing.Values == s.refreshing.Values
            && (current || (!turn.online && s.cachedNymnodes.Some?) ==>
                  && ReplyTo(s, turn) == Some(Ok(s.cachedNymnodes.value.list)) && s'.cachedNymnodes == s.cachedNymnodes)
            && (!turn.online && s.cachedNymnodes.None? ==>
                  ReplyTo(s, turn) == Some(Err(Offline)) && s'.cachedNymnodes == None)
            && (!current && turn.online ==>
                  && ReplyTo(s, turn) == Some(turn.answer)
                  && s'.cachedNymnodes ==
                     if turn.answer.Ok? then Some(Entry(turn.answer.value, turn.at)) else s.cachedNymnodes)
  {
  }

  /** What a background fetch that ends leaves: its list, if it brought one, under the type it was for. */
  lemma JoinMeans(s: Standing, turn: Turn, s': Standing)
    requires turn.JoinNext? && Handled(s, turn, s')
    ensures var f := turn.fetch;
            && s'.refreshing.Values == (s.refreshing - {f}).Values && s'.cachedNymnodes == s.cachedNymnodes
            && (f in s.refreshing && turn.joined.Returned? && turn.joined.result.Ok? ==>
                  s'.cached == s.cached[s.refreshing[f] := Entry(turn.joined.result.value, turn.now)])
            && (f !in s.refreshing || turn.joined == TaskFailed || turn.joined.result.Err? ==> s'.cached == s.cached)
  {
  }

  /** The periodic check changes no list; what it starts is stale, asked for in the last half hour, and all of that. */
  lemma TickMeans(s: Standing, turn: Turn, s': Standing, t: GatewayType)
    requires turn.RefreshTick? && Handled(s, turn, s')
    ensures s' == s.(refreshing := s'.refreshing)
    ensures var now := turn.now;
            var stale := !(t in s.cached && (s.cached[t].at > now || now - s.cached[t].at < 5 * 60 * 1000));
            var used := t in s.interest && (s.interest[t] > now || now - s.interest[t] < 30 * 60 * 1000);
            t in s'.refreshing.Values <==> t in s.refreshing.Values || (turn.online && stale && used)
  {
  }

  /**
   * A refresh of all lists asks for those that are missing or five minutes old: each of these that
   * came replaces the old one, and every other list stays. On coming online that happens once.
   */
  lemma RefreshMeans(s: Standing, turn: Turn, s': Standing, t: GatewayType)
    requires (turn.Refreshing? || turn.CameOnline?) && Handled(s, turn, s')
    requires EndsFit(turn.ends, |StaleTypes(s.cached, turn.now)|)
    ensures var asked := StaleTypes(s.cached, turn.now);
            var stale := !(t in s.cached && (s.cached[t].at > turn.now || turn.now - s.cached[t].at < 5 * 60 * 1000));
            var refreshes := turn.online && (turn.CameOnline? ==> !s.initialRefreshDone);
            && (t in asked <==> stale)
            && (turn.CameOnline? ==> s'.initialRefreshDone) && s'.refreshing.Values == s.refreshing.Values
            && (forall end :: end in turn.ends && asked[end.task] == t && refreshes
                              && end.joined.Returned? && end.joined.result.Ok? ==>
                                t in s'.cached && s'.cached[t] == Entry(end.joined.result.value, end.at))
            && ((forall end :: end in turn.ends && asked[end.task] == t && refreshes ==>
                                 end.joined == TaskFailed || end.joined.result.Err?) ==>
                  (t in s'.cached <==> t in s.cached) && (t in s.cached ==> s'.cached[t] == s.cached[t]))
  {
    var asked := StaleTypes(s.cached, turn.now);
    MergedByType(s.cached, asked, turn.ends, t);
    assert forall i :: 0 <= i < |turn.ends| ==> turn.ends[i] in turn.ends;
  }

  /** Other thresholds drop every list and every fetch; so does clearing, which also re-arms the first refresh. */
  lemma ResetMeans(s: Standing, turn: Turn, s': Standing)
    requires Handled(s, turn, s')
    ensures turn.Replacing? ==> s'.client == turn.client && s'.interest == s.interest
    ensures turn.Clearing? || (turn.Replacing? && turn.client.thresholds != s.client.thresholds) ==>
            s'.cached == map[] && s'.cachedNymnodes == None && s'.refreshing.Values == {}
    ensures turn.Replacing? && turn.client.thresholds == s.client.thresholds ==>
            && s'.cached == s.cached && s'.cachedNymnodes == s.cachedNymnodes
            && s'.refreshing.Values == s.refreshing.Values
    ensures turn.Clearing? ==> !s'.initialRefreshDone && s'.client == s.client
  {
  }

  /** A turn fetches inline no list that is being fetched in the background. */
  predicate KeepsClear(s: Standing, turn: Turn) {
    DeliveredBy(s, turn) !! s.refreshing.Values
  }

  /** The turns taken so far, each with what the cache stood at before it. */
  type Trail = History<(Standing, Turn)>

  /** Taking the turns of `trail` one after the other leads to `s`. */
  predicate LeadsTo(trail: Trail, s: Standing) {
    trail.Then? ==> Handled(trail.last.0, trail.last.1, s) && LeadsTo(trail.before, trail.last.0)
  }

  function Origin(trail: Trail, s: Standing): Standing {
    if trail.Start? then s else Origin(trail.before, trail.last.0)
  }

  /** A trail is what was done turn by turn. */
  lemma TrailMeans(trail: Trail, s: Standing, turn: Turn, s': Standing)
    ensures LeadsTo(Then(trail, (s, turn)), s') <==> Handled(s, turn, s') && LeadsTo(trail, s)
    ensures Origin(Start, s) == s && Origin(Then(trail, (s, turn)), s') == Origin(trail, s)
  {
  }

  function TurnsOf(trail: Trail): seq<Turn> {
    if trail.Start? then [] else TurnsOf(trail.before) + [trail.last.1]
  }

  /** What was answered on the way. */
  function RepliesOf(trail: Trail): seq<Option<Result<List, Error>>> {
    if trail.Start? then [] else RepliesOf(trail.before) + [ReplyTo(trail.last.0, trail.last.1)]
  }

  /** No turn on the way fetched inline a list that was then being fetched in the background. */
  predicate KeptClear(trail: Trail) {
    trail.Then? ==> KeptClear(trail.before) && KeepsClear(trail.last.0, trail.last.1)
  }

  /** The changes of client and the clears asked for on the way. */
  function AskedResets(trail: Trail): seq<Event> {
    if trail.Start? then [] else AskedResets(trail.before) + ResetsOf(trail.last.1)
  }

  lemma Appended<T>(all: seq<T>, first: seq<T>, more: seq<T>, last: seq<T>)
    requires all == first + more
    ensures all + last == first + (more + last)
  {
  }

  lemma TurnTaken(turns: seq<Turn>, i: nat)
    requires i < |turns|
    ensures turns[..i + 1] == turns[..i] + [turns[i]]
  {
  }
}
