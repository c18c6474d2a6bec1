/** The gateway blacklist: entries expire after twenty minutes and are pruned when it is changed. */
module BlacklistedGateways {
  import opened Prelude
  import opened Histories

  const TTL: Duration := 20 * 60 * 1000 // milliseconds

  datatype Op = Add(id: nat, at: Instant) | Remove(id: nat, at: Instant) | Clear

  type Changes = History<Op>

  /** When `id` was added, if the last change that concerns it is an addition. */
  function AddedAt(h: Changes, id: nat): Option<Instant> {
    match h
    case Start => None
    case Then(before, Add(i, at)) => if i == id then Some(at) else AddedAt(before, id)
    case Then(before, Remove(i, _)) => if i == id then None else AddedAt(before, id)
    case Then(before, Clear) => None
  }

  /** Blacklisted by the history alone, nothing ever pruned: added less than twenty minutes ago. */
  predicate Blacklisted(h: Changes, id: nat, now: Instant) {
    AddedAt(h, id).Some? && now < AddedAt(h, id).value + TTL
  }

  class BlacklistedGateways {
    var expiries: map<nat, Instant>
    ghost var history: Changes
    ghost var clock: Instant

    /** What was pruned had expired, and what is kept expires when its addition says. */
    ghost predicate Valid()
      reads this
    {
      forall id :: if id in expiries
                   then AddedAt(history, id).Some? && expiries[id] == AddedAt(history, id).value + TTL
                   else !Blacklisted(history, id, clock)
    }

    constructor ()
      ensures Valid() && history == Start && clock == 0 && expiries == map[]
    {
      expiries, history, clock := map[], Start, 0;
    }

    /** Housekeeping: drops what expired before `now`. */
    method Retain(now: Instant)
      modifies this`expiries
      ensures expiries == map id | id in old(expiries) && old(expiries)[id] >= now :: old(expiries)[id]
    {
      expiries := map id | id in expiries && expiries[id] >= now :: expiries[id];
    }

    method Add(id: nat, now: Instant)
      requires Valid() && clock <= now
      modifies this
      ensures Valid() && clock == now && history == Then(old(history), Op.Add(id, now))
      ensures forall i :: i in expiries ==> AddedAt(history, i).Some? && now <= AddedAt(history, i).value + TTL
    {
      expiries := expiries[id := now + TTL];
      Retain(now);
      history := Then(history, Op.Add(id, now));
      clock := now;
    }

    method Remove(id: nat, now: Instant)
      requires Valid() && clock <= now
      modifies this
      ensures Valid() && clock == now && history == Then(old(history), Op.Remove(id, now))
      ensures forall i :: i in expiries ==> AddedAt(history, i).Some? && now <= AddedAt(history, i).value + TTL
    {
      expiries := expiries - {id};
      Retain(now);
      history := Then(history, Op.Remove(id, now));
      clock := now;
    }

    method Clear()
      requires Valid()
      modifies this`expiries, this`history
      ensures Valid() && history == Then(old(history), Op.Clear) && expiries == map[]
    {
      expiries := map[];
      history := Then(history, Op.Clear);
    }

    /** Pruning is invisible: the answer is the one the unpruned history gives. */
    method Exists(id: nat, now: Instant) returns (r: bool)
      requires Valid() && clock <= now
      ensures r == Blacklisted(history, id, now)
    {
      r := id in expiries && expiries[id] > now;
    }
  }

  function AsSeq(h: Changes): seq<Op> {
    if h.Start? then [] else AsSeq(h.before) + [h.last]
  }

  /**
   * On the sequence of changes: blacklisted means that some change added the id less than
   * twenty minutes ago, and no later one adds or removes it or clears the list.
   */
  lemma {:induction false} BlacklistedExactly(h: Changes, id: nat, now: Instant)
    ensures Blacklisted(h, id, now) <==>
            exists i ::
              && 0 <= i < |AsSeq(h)| && AsSeq(h)[i].Add? && AsSeq(h)[i].id == id
              && now < AsSeq(h)[i].at + 20 * 60 * 1000
              && forall k :: i < k < |AsSeq(h)| ==> AsSeq(h)[k] != Clear && AsSeq(h)[k].id != id
  {
    if h.Then? {
      BlacklistedExactly(h.before, id, now);
      var s, s' := AsSeq(h.before), AsSeq(h);
      assert s'[|s|] == h.last && forall k :: 0 <= k < |s| ==> s'[k] == s[k];
    }
  }
}
