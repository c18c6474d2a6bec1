/** What the directory did for the cache: which fetches began and which results were stored. */
module GatewayTrace {
  import opened Prelude

  datatype GatewayType = MixnetEntry | MixnetExit | Wg

  /** The lists the cache keeps: one per gateway type, and the full node list. */
  datatype Key = Gateways(gwType: GatewayType) | Nodes

  datatype List = List(nodes: seq<nat>)

  datatype Thresholds = Thresholds(mixnet: Option<nat>, vpn: Option<nat>)

  datatype Client = Client(id: nat, thresholds: Option<Thresholds>)

  datatype Event =
    | Begun(fetch: nat, key: Key, client: Client)
    | Stored(fetch: nat, list: List, at: Instant)
    | Replaced(client: Client)
    | Cleared

  type Trace = seq<Event>

  function Current(tr: Trace): Option<Client> {
    if tr == [] then None
    else
      var e := tr[|tr| - 1];
      if e.Replaced? then Some(e.client) else Current(tr[..|tr| - 1])
  }

  /** Clearing drops every list; so does a client with other thresholds. */
  predicate Invalidates(tr: Trace, e: Event) {
    e.Cleared?
    || (e.Replaced? && Current(tr).Some? && Current(tr).value.thresholds != e.client.thresholds)
  }

  function KeyOf(tr: Trace, f: nat): Option<Key> {
    if tr == [] then None
    else
      var e := tr[|tr| - 1];
      if e.Begun? && e.fetch == f then Some(e.key) else KeyOf(tr[..|tr| - 1], f)
  }

  /** Fetch `f` began, and nothing was invalidated since. */
  predicate Live(tr: Trace, f: nat) {
    tr != []
    && var e, before := tr[|tr| - 1], tr[..|tr| - 1];
       (e.Begun? && e.fetch == f) || (!Invalidates(before, e) && Live(before, f))
  }

  /** Where the list to serve for `key` was stored: the last store since the last invalidation. */
  function LatestStore(tr: Trace, key: Key): (r: Option<nat>)
    ensures r.Some? ==> r.value < |tr| && tr[r.value].Stored?
  {
    if tr == [] then None
    else
      var n := |tr| - 1;
      var before := tr[..n];
      match tr[n]
      case Stored(f, _, _) => if KeyOf(before, f) == Some(key) then Some(n) else LatestStore(before, key)
      case _ => if Invalidates(before, tr[n]) then None else LatestStore(before, key)
  }

  /** The number of the next fetch. */
  function NextFetch(tr: Trace): nat {
    if tr == [] then 0
    else
      var e := tr[|tr| - 1];
      if e.Begun? then e.fetch + 1 else NextFetch(tr[..|tr| - 1])
  }

  /** Fetches are numbered as they begin, by the client in place, and only live ones are stored. */
  predicate WellFormed(tr: Trace) {
    tr == []
    || var e, before := tr[|tr| - 1], tr[..|tr| - 1];
       && WellFormed(before)
       && (e.Begun? ==>
             KeyOf(before, e.fetch).None? && Current(before) == Some(e.client) && e.fetch == NextFetch(before))
       && (e.Stored? ==> Live(before, e.fetch))
  }

  function BeginIndex(tr: Trace, f: nat): nat
    requires Live(tr, f)
  {
    var n := |tr| - 1;
    if tr[n].Begun? && tr[n].fetch == f then n else BeginIndex(tr[..n], f)
  }

  /** A live fetch was begun by a client with today's thresholds, after the last clear. */
  lemma {:induction false} LiveFetchIsCurrent(tr: Trace, f: nat)
    requires WellFormed(tr) && Live(tr, f)
    ensures var i := BeginIndex(tr, f);
            && i < |tr| && tr[i].Begun? && tr[i].fetch == f && KeyOf(tr, f) == Some(tr[i].key)
            && Current(tr).Some? && tr[i].client.thresholds == Current(tr).value.thresholds
            && (forall j :: i < j < |tr| ==> !tr[j].Cleared?)
    decreases |tr|
  {
    var n := |tr| - 1;
    if !(tr[n].Begun? && tr[n].fetch == f) {
      LiveFetchIsCurrent(tr[..n], f);
    }
  }

  lemma {:induction false} LatestStoreIsLive(tr: Trace, key: Key)
    requires WellFormed(tr) && LatestStore(tr, key).Some?
    ensures var j := LatestStore(tr, key).value;
            && j < |tr| && tr[j].Stored? && KeyOf(tr, tr[j].fetch) == Some(key) && Live(tr, tr[j].fetch)
            && BeginIndex(tr, tr[j].fetch) < j
            && (forall m :: j < m < |tr| && tr[m].Stored? ==> KeyOf(tr, tr[m].fetch) != Some(key))
    decreases |tr|
  {
    var n := |tr| - 1;
    var before := tr[..n];
    if tr[n].Stored? && KeyOf(before, tr[n].fetch) == Some(key) {
      LiveFetchIsCurrent(before, tr[n].fetch);
    } else {
      LatestStoreIsLive(before, key);
      var j := LatestStore(before, key).value;
      forall m | j < m < |tr| && tr[m].Stored? ensures KeyOf(tr, tr[m].fetch) != Some(key) {
        if m < n {
          StoredFetchBegan(before, m);
          assert KeyOf(before, tr[m].fetch) != Some(key);
        }
      }
    }
  }

  lemma {:induction false} StoredFetchBegan(tr: Trace, m: nat)
    requires WellFormed(tr) && m < |tr| && tr[m].Stored?
    ensures KeyOf(tr, tr[m].fetch).Some?
    decreases |tr|
  {
    var n := |tr| - 1;
    if m == n { LiveFetchIsCurrent(tr[..n], tr[n].fetch); } else { StoredFetchBegan(tr[..n], m); }
  }

  /**
   * The list served for a key is what some fetch of it returned, begun by a client with
   * the thresholds now in place and after the last clear, and no fetch of it was stored later.
   */
  lemma ServedListIsCurrent(tr: Trace, key: Key)
    requires WellFormed(tr) && LatestStore(tr, key).Some?
    ensures exists i, j ::
              && 0 <= i < j < |tr| && LatestStore(tr, key) == Some(j)
              && tr[i].Begun? && tr[j].Stored? && tr[i].fetch == tr[j].fetch && tr[i].key == key
              && Current(tr).Some? && tr[i].client.thresholds == Current(tr).value.thresholds
              && (forall m :: i < m < |tr| ==> !tr[m].Cleared?)
              && (forall m :: j < m < |tr| && tr[m].Stored? ==> KeyOf(tr, tr[m].fetch) != Some(key))
  {
    LatestStoreIsLive(tr, key);
    var j := LatestStore(tr, key).value;
    LiveFetchIsCurrent(tr, tr[j].fetch);
    var i := BeginIndex(tr, tr[j].fetch);
    assert i < j && tr[i].fetch == tr[j].fetch;
  }

  /** `tr'` continues `tr` with fetches begun and stored, and nothing else. */
  predicate FetchesOnly(tr: Trace, tr': Trace) {
    tr <= tr' && forall k :: |tr| <= k < |tr'| ==> tr'[k].Begun? || tr'[k].Stored?
  }

  /** The changes of client and the clears, in order. */
  function Resets(tr: Trace): seq<Event> {
    if tr == [] then []
    else
      var n := |tr| - 1;
      Resets(tr[..n]) + if tr[n].Replaced? || tr[n].Cleared? then [tr[n]] else []
  }

  lemma {:induction false} FetchesReset(tr: Trace, tr': Trace)
    requires FetchesOnly(tr, tr')
    ensures Resets(tr') == Resets(tr)
    decreases |tr'|
  {
    if |tr| < |tr'| {
      FetchesReset(tr, tr'[..|tr'| - 1]);
    } else {
      assert tr == tr';
    }
  }

  lemma ResetsSnoc(tr: Trace, e: Event)
    ensures Resets(tr + [e]) == Resets(tr) + if e.Replaced? || e.Cleared? then [e] else []
  {
    assert (tr + [e])[..|tr|] == tr;
  }

  /** How each reading of a trace changes when one event is added. */
  lemma Snoc(tr: Trace, e: Event)
    ensures Current(tr + [e]) == if e.Replaced? then Some(e.client) else Current(tr)
    ensures NextFetch(tr + [e]) == if e.Begun? then e.fetch + 1 else NextFetch(tr)
    ensures forall f :: KeyOf(tr + [e], f) == if e.Begun? && e.fetch == f then Some(e.key) else KeyOf(tr, f)
    ensures forall f :: Live(tr + [e], f) <==> (e.Begun? && e.fetch == f) || (!Invalidates(tr, e) && Live(tr, f))
    ensures WellFormed(tr + [e]) <==>
            && WellFormed(tr)
            && (e.Begun? ==> KeyOf(tr, e.fetch).None? && Current(tr) == Some(e.client) && e.fetch == NextFetch(tr))
            && (e.Stored? ==> Live(tr, e.fetch))
    ensures forall key :: LatestStore(tr + [e], key) ==
                          if e.Stored? && KeyOf(tr, e.fetch) == Some(key) then Some(|tr|)
                          else if Invalidates(tr, e) then None
                          else LatestStore(tr, key)
  {
    assert (tr + [e])[..|tr|] == tr;
  }

  // ---- Whether the list served is the newest there was ----

  /** Of the fetches of `key` stored since the last invalidation, the one that began last. */
  function NewestStored(tr: Trace, key: Key): Option<nat> {
    if tr == [] then None
    else
      var n := |tr| - 1;
      var before := tr[..n];
      var newest := NewestStored(before, key);
      match tr[n]
      case Stored(f, _, _) =>
        if KeyOf(before, f) != Some(key) then newest
        else if newest.Some? && newest.value > f then newest
        else Some(f)
      case _ => if Invalidates(before, tr[n]) then None else newest
  }

  /** A fetch of the same list that began after `f` has been stored already. */
  predicate Overtaken(tr: Trace, f: nat) {
    KeyOf(tr, f).Some?
    && var newest := NewestStored(tr, KeyOf(tr, f).value);
       newest.Some? && newest.value > f
  }

  /** The list served for `key` is from the fetch that began last among those stored. */
  predicate ServesNewest(tr: Trace, key: Key) {
    match LatestStore(tr, key)
    case None => true
    case Some(j) => NewestStored(tr, key) == Some(tr[j].fetch)
  }

  ghost predicate AllNewest(tr: Trace) {
    forall key :: ServesNewest(tr, key)
  }

  /** Numbers follow the order in which fetches begin. */
  lemma {:induction false} NumberedInOrder(tr: Trace, i: nat, j: nat)
    requires WellFormed(tr) && i < j < |tr| && tr[i].Begun? && tr[j].Begun?
    ensures tr[i].fetch < tr[j].fetch
    decreases |tr|
  {
    var n := |tr| - 1;
    if j < n { NumberedInOrder(tr[..n], i, j); } else { BegunBelowNext(tr[..n], i); }
  }

  lemma {:induction false} BegunBelowNext(tr: Trace, i: nat)
    requires WellFormed(tr) && i < |tr| && tr[i].Begun?
    ensures tr[i].fetch < NextFetch(tr)
    decreases |tr|
  {
    var n := |tr| - 1;
    if i < n {
      BegunBelowNext(tr[..n], i);
    }
  }

  lemma {:induction false} KeyedBelowNext(tr: Trace, f: nat)
    requires WellFormed(tr) && KeyOf(tr, f).Some?
    ensures f < NextFetch(tr)
    decreases |tr|
  {
    var n := |tr| - 1;
    if !(tr[n].Begun? && tr[n].fetch == f) { KeyedBelowNext(tr[..n], f); }
  }

  /** `NewestStored` is what it says: a live fetch of the list, and stored. */
  lemma {:induction false} NewestStoredIsStored(tr: Trace, key: Key)
    requires WellFormed(tr) && NewestStored(tr, key).Some?
    ensures var f := NewestStored(tr, key).value;
            && KeyOf(tr, f) == Some(key) && Live(tr, f)
            && (exists j :: 0 <= j < |tr| && tr[j].Stored? && tr[j].fetch == f)
    decreases |tr|
  {
    var n := |tr| - 1;
    var before := tr[..n];
    if tr[n].Stored? && NewestStored(tr, key) == Some(tr[n].fetch) && KeyOf(before, tr[n].fetch) == Some(key) {
      assert tr[n].Stored?;
    } else {
      NewestStoredIsStored(before, key);
      var j :| 0 <= j < |before| && before[j].Stored? && before[j].fetch == NewestStored(before, key).value;
      assert tr[j].Stored?;
    }
  }

  /** And no live fetch of the list that was stored began later. */
  lemma {:induction false} NewestStoredIsNewest(tr: Trace, key: Key, j: nat)
    requires WellFormed(tr) && j < |tr| && tr[j].Stored? && Live(tr, tr[j].fetch) && KeyOf(tr, tr[j].fetch) == Some(key)
    ensures NewestStored(tr, key).Some? && tr[j].fetch <= NewestStored(tr, key).value
    decreases |tr|
  {
    var n := |tr| - 1;
    if j < n {
      StoredFetchBegan(tr[..n], j);
      NewestStoredIsNewest(tr[..n], key, j);
    }
  }

  /** In terms of the trace: of the live fetches of a list that were stored, none began later. */
  lemma NewestBeganLast(tr: Trace, key: Key, j: nat)
    requires WellFormed(tr) && j < |tr| && tr[j].Stored? && Live(tr, tr[j].fetch) && KeyOf(tr, tr[j].fetch) == Some(key)
    ensures NewestStored(tr, key).Some? && Live(tr, NewestStored(tr, key).value)
    ensures BeginIndex(tr, tr[j].fetch) <= BeginIndex(tr, NewestStored(tr, key).value)
  {
    NewestStoredIsNewest(tr, key, j);
    NewestStoredIsStored(tr, key);
    var f, g := tr[j].fetch, NewestStored(tr, key).value;
    LiveFetchIsCurrent(tr, f);
    LiveFetchIsCurrent(tr, g);
    if BeginIndex(tr, g) < BeginIndex(tr, f) { NumberedInOrder(tr, BeginIndex(tr, g), BeginIndex(tr, f)); }
  }

  lemma NewestBelowNext(tr: Trace, key: Key)
    requires WellFormed(tr)
    ensures NewestStored(tr, key).Some? ==> NewestStored(tr, key).value < NextFetch(tr)
  {
    if NewestStored(tr, key).Some? {
      NewestStoredIsStored(tr, key);
      KeyedBelowNext(tr, NewestStored(tr, key).value);
    }
  }

  /** A fetch that begins is behind nothing yet, and changes nothing for the others. */
  lemma BegunOvertakesNone(tr: Trace, e: Event)
    requires WellFormed(tr) && WellFormed(tr + [e]) && e.Begun?
    ensures !Overtaken(tr + [e], e.fetch)
    ensures forall g: nat :: g != e.fetch ==> (Overtaken(tr + [e], g) <==> Overtaken(tr, g))
    ensures AllNewest(tr) ==> AllNewest(tr + [e])
  {
    assert (tr + [e])[..|tr|] == tr;
    NewestBelowNext(tr, e.key);
    assert AllNewest(tr) ==> forall key :: ServesNewest(tr, key) ==> ServesNewest(tr + [e], key);
  }

  /**
   * A stored list overtakes exactly the fetches of the same list that began earlier; and it is
   * the newest exactly if none that began later was stored before it.
   */
  lemma StoredOvertakesOlder(tr: Trace, e: Event)
    requires WellFormed(tr) && WellFormed(tr + [e]) && e.Stored?
    ensures forall g: nat :: Overtaken(tr + [e], g) <==>
                        Overtaken(tr, g) || (g < e.fetch && KeyOf(tr, g).Some? && KeyOf(tr, g) == KeyOf(tr, e.fetch))
    ensures forall key :: ServesNewest(tr + [e], key) <==>
                          if KeyOf(tr, e.fetch) == Some(key) then !Overtaken(tr, e.fetch) else ServesNewest(tr, key)
  {
    assert (tr + [e])[..|tr|] == tr;
  }

  /** A reset either drops every list or changes nothing for them. */
  lemma ResetKeepsOrder(tr: Trace, e: Event)
    requires e.Replaced? || e.Cleared?
    ensures Invalidates(tr, e) ==> AllNewest(tr + [e])
    ensures !Invalidates(tr, e) ==>
            && (AllNewest(tr) ==> AllNewest(tr + [e]))
            && forall g: nat :: Overtaken(tr + [e], g) <==> Overtaken(tr, g)
  {
    assert (tr + [e])[..|tr|] == tr;
    forall key ensures ServesNewest(tr + [e], key) <==> Invalidates(tr, e) || ServesNewest(tr, key) {
    }
  }

  /** Over the whole trace: the list served is the newest exactly if it was not overtaken when it was stored. */
  lemma {:induction false} ServedIsNewestExactly(tr: Trace, key: Key)
    requires WellFormed(tr) && LatestStore(tr, key).Some?
    ensures var j := LatestStore(tr, key).value;
            ServesNewest(tr, key) <==> !Overtaken(tr[..j], tr[j].fetch)
    decreases |tr|
  {
    var n := |tr| - 1;
    var before := tr[..n];
    LatestStoreIsLive(tr, key);
    if LatestStore(tr, key) != Some(n) {
      ServedIsNewestExactly(before, key);
      assert before[..LatestStore(tr, key).value] == tr[..LatestStore(tr, key).value];
    }
  }
}
