/**
 * Stepping an obviously wrong clock, once, to the first usable time a server sends. The clock goes
 * on while servers are looked up and asked, but the time compared with the replies is read before.
 */
module ClockBootstrap {
  import opened Prelude
  import opened Sntp

  const MAX_NTP_SERVERS: nat := 6
  const NTP_POOL_HOSTS: nat := 3

  // Times are in nanoseconds since the Unix epoch.
  const SNTP_TIMEOUT: nat := 3 * NANOS_PER_SEC
  const RESOLVE_TIMEOUT: nat := 10 * NANOS_PER_SEC
  const MAX_PLAUSIBLE_AHEAD: nat := 15 * 365 * 24 * 3600 * NANOS_PER_SEC

  // ---- The servers ----

  /** An address of the NTP pool. */
  datatype Address = Address(ip: nat, v6: bool)

  function OfFamily(s: seq<Address>, v6: bool): seq<Address> {
    if s == [] then []
    else if s[0].v6 == v6 then [s[0]] + OfFamily(s[1..], v6)
    else OfFamily(s[1..], v6)
  }

  /** The stable sort by "is IPv6" of the library. */
  function SortedByFamily(s: seq<Address>): (r: seq<Address>)
    ensures |r| == |s|
  {
    FamilyLengths(s);
    OfFamily(s, false) + OfFamily(s, true)
  }

  lemma FamilyLengths(s: seq<Address>)
    ensures |OfFamily(s, false)| + |OfFamily(s, true)| == |s|
  {
  }

  lemma {:induction false} FamilyMembers(s: seq<Address>, v6: bool)
    ensures forall i :: 0 <= i < |OfFamily(s, v6)| ==> OfFamily(s, v6)[i].v6 == v6
  {
    if s != [] { FamilyMembers(s[1..], v6); }
  }

  lemma {:induction false} FamilyOfConcat(s: seq<Address>, t: seq<Address>, v6: bool)
    ensures OfFamily(s + t, v6) == OfFamily(s, v6) + OfFamily(t, v6)
  {
    if s == [] {
      assert s + t == t;
    } else {
      FamilyOfConcat(s[1..], t, v6);
      assert (s + t)[0] == s[0] && (s + t)[1..] == s[1..] + t;
    }
  }

  lemma {:induction false} FamilyOfUniform(s: seq<Address>, v6: bool)
    requires forall i :: 0 <= i < |s| ==> s[i].v6 == v6
    ensures OfFamily(s, v6) == s && OfFamily(s, !v6) == []
  {
    if s != [] { FamilyOfUniform(s[1..], v6); }
  }

  /** What the lookup of a pool host yields, nothing if it fails, and how long it takes. */
  datatype Lookup = Lookup(found: seq<Address>, took: Duration)

  /** The addresses collected: host by host, stopping once there are six. */
  function Collected(lookups: seq<Lookup>): seq<Address> {
    CollectedFrom([], lookups)
  }

  function CollectedFrom(out: seq<Address>, lookups: seq<Lookup>): seq<Address>
    decreases |lookups|
  {
    if lookups == [] then out
    else
      var out' := out + lookups[0].found;
      if |out'| >= MAX_NTP_SERVERS then out' else CollectedFrom(out', lookups[1..])
  }

  /** How long the lookups take that are made. */
  function Resolving(lookups: seq<Lookup>): Duration {
    ResolvingFrom([], lookups)
  }

  function ResolvingFrom(out: seq<Address>, lookups: seq<Lookup>): Duration
    decreases |lookups|
  {
    if lookups == [] then 0
    else
      var out' := out + lookups[0].found;
      lookups[0].took + if |out'| >= MAX_NTP_SERVERS then 0 else ResolvingFrom(out', lookups[1..])
  }

  lemma {:induction false} ResolvingBounded(out: seq<Address>, lookups: seq<Lookup>)
    requires forall i :: 0 <= i < |lookups| ==> lookups[i].took <= RESOLVE_TIMEOUT
    ensures ResolvingFrom(out, lookups) <= |lookups| * RESOLVE_TIMEOUT
    decreases |lookups|
  {
    if lookups != [] { ResolvingBounded(out + lookups[0].found, lookups[1..]); }
  }

  /** The servers to ask: of the addresses collected, the first six with all IPv4 before all IPv6. */
  function Pool(lookups: seq<Lookup>): seq<Address> {
    SortedByFamily(Collected(lookups))[..Min(|Collected(lookups)|, MAX_NTP_SERVERS)]
  }

  /** A family of the first `n` sorted addresses is the start of that family as resolved. */
  lemma SortedPrefixKeepsOrder(all: seq<Address>, n: nat)
    requires n <= |all|
    ensures var r := SortedByFamily(all)[..n];
            && (forall i, j :: 0 <= i < j < |r| && r[i].v6 ==> r[j].v6)
            && OfFamily(r, false) <= OfFamily(all, false) && OfFamily(r, true) <= OfFamily(all, true)
            && (OfFamily(r, true) != [] ==> OfFamily(r, false) == OfFamily(all, false))
  {
    var v4, v6 := OfFamily(all, false), OfFamily(all, true);
    FamilyLengths(all);
    FamilyMembers(all, false);
    FamilyMembers(all, true);
    if n <= |v4| {
      assert SortedByFamily(all)[..n] == v4[..n];
      FamilyOfUniform(v4[..n], false);
    } else {
      assert SortedByFamily(all)[..n] == v4 + v6[..n - |v4|];
      FamilyOfConcat(v4, v6[..n - |v4|], false);
      FamilyOfConcat(v4, v6[..n - |v4|], true);
      FamilyOfUniform(v4, false);
      FamilyOfUniform(v6[..n - |v4|], true);
    }
  }

  /** Every address the first `n` hosts resolve to, in order. */
  function AddressesOf(lookups: seq<Lookup>, n: nat): seq<Address>
    requires n <= |lookups|
  {
    if n == 0 then [] else AddressesOf(lookups, n - 1) + lookups[n - 1].found
  }

  /** The hosts looked up: the fewest with six addresses between them, or all. */
  predicate HostsUsed(lookups: seq<Lookup>, n: nat) {
    && n <= |lookups|
    && (n == |lookups| || |AddressesOf(lookups, n)| >= 6)
    && forall m :: 0 <= m < n ==> |AddressesOf(lookups, m)| < 6
  }

  lemma {:induction false} CollectedOfHosts(lookups: seq<Lookup>, m: nat, n: nat)
    requires m <= n && HostsUsed(lookups, n)
    requires m == n ==> m == |lookups|
    ensures CollectedFrom(AddressesOf(lookups, m), lookups[m..]) == AddressesOf(lookups, n)
    decreases n - m
  {
    if m < n {
      assert lookups[m..][0] == lookups[m] && lookups[m..][1..] == lookups[m + 1..];
      if m + 1 < n || n == |lookups| {
        if |AddressesOf(lookups, m + 1)| < 6 {
          CollectedOfHosts(lookups, m + 1, n);
        }
      }
    }
  }

  /**
   * The servers asked, in terms of what the hosts resolve to. Of the hosts looked up they are the
   * first six IPv4 addresses, or all if there are fewer, and then as many of the IPv6 addresses,
   * from the first on, as there is room for.
   */
  lemma PoolMeans(lookups: seq<Lookup>, n: nat)
    requires HostsUsed(lookups, n)
    ensures var v4, v6 := OfFamily(AddressesOf(lookups, n), false), OfFamily(AddressesOf(lookups, n), true);
            var n4 := if |v4| < 6 then |v4| else 6;
            var n6 := if |v6| < 6 - n4 then |v6| else 6 - n4;
            Pool(lookups) == v4[..n4] + v6[..n6]
  {
    if |lookups| > 0 {
      assert lookups[0..] == lookups;
      AtLeastOneHost(lookups, n);
      CollectedOfHosts(lookups, 0, n);
    }
    var all := AddressesOf(lookups, n);
    FamilyLengths(all);
    assert Collected(lookups) == all;
  }

  lemma AtLeastOneHost(lookups: seq<Lookup>, n: nat)
    requires HostsUsed(lookups, n) && |lookups| > 0
    ensures n > 0
  {
  }

  /** Of each family exactly its own addresses are picked, in order. */
  lemma OfFamilyMeans(s: seq<Address>, a: Address, v6: bool)
    ensures OfFamily([], v6) == []
    ensures OfFamily(s + [a], v6) == OfFamily(s, v6) + if a.v6 == v6 then [a] else []
  {
    FamilyOfConcat(s, [a], v6);
    assert [a][1..] == [];
  }

  /**
   * At most six servers, all IPv4 before all IPv6, each family in the order it was resolved, and
   * none left out while there is room.
   */
  lemma PoolOrder(lookups: seq<Lookup>)
    ensures |Pool(lookups)| == Min(|Collected(lookups)|, MAX_NTP_SERVERS)
    ensures forall i, j :: 0 <= i < j < |Pool(lookups)| && Pool(lookups)[i].v6 ==> Pool(lookups)[j].v6
    ensures OfFamily(Pool(lookups), false) <= OfFamily(Collected(lookups), false)
    ensures OfFamily(Pool(lookups), true) <= OfFamily(Collected(lookups), true)
    ensures OfFamily(Pool(lookups), true) != [] ==>
              OfFamily(Pool(lookups), false) == OfFamily(Collected(lookups), false)
  {
    SortedPrefixKeepsOrder(Collected(lookups), Min(|Collected(lookups)|, MAX_NTP_SERVERS));
  }

  /** The clock was asked to go from one time to another. */
  datatype Attempt = Attempt(from: nat, to: nat)

  class Clock {
    var time: nat
    var attempts: seq<Attempt>

    constructor (time: nat)
      ensures this.time == time && attempts == []
    {
      this.time, attempts := time, [];
    }

    method Pass(d: Duration)
      modifies this`time
      ensures time == old(time) + d
    {
      time := time + d;
    }

    method Set(t: nat, settable: bool) returns (ok: bool)
      modifies this
      ensures ok == settable && attempts == old(attempts) + [Attempt(old(time), t)]
      ensures time == if ok then t else old(time)
    {
      attempts := attempts + [Attempt(time, t)];
      if settable {
        time := t;
      }
      ok := settable;
    }
  }

  /** Looks the hosts up one after the other, while the clock goes on. */
  method ResolvePool(clock: Clock, lookups: seq<Lookup>) returns (out: seq<Address>)
    modifies clock`time
    ensures out == Pool(lookups) && clock.time == old(clock.time) + Resolving(lookups)
  {
    out := [];
    var i := 0;
    while i < |lookups|
      invariant 0 <= i <= |lookups|
      invariant CollectedFrom(out, lookups[i..]) == Collected(lookups)
      invariant clock.time + ResolvingFrom(out, lookups[i..]) == old(clock.time) + Resolving(lookups)
    {
      clock.Pass(lookups[i].took);
      out := out + lookups[i].found;
      assert lookups[i..][1..] == lookups[i + 1..];
      i := i + 1;
      if |out| >= MAX_NTP_SERVERS {
        break;
      }
    }
    assert out == Collected(lookups);
    out := SortedByFamily(out);
    if |out| > MAX_NTP_SERVERS {
      out := out[..MAX_NTP_SERVERS];
    }
    assert out == SortedByFamily(Collected(lookups))[..|out|];
  }

  // ---- Their replies ----

  /** What a query yields, if any, how long it takes, and whether the clock could be set to its time. */
  datatype Response = Response(packet: Option<seq<Byte>>, took: Duration, settable: bool)
  {
    function Time(): Option<nat> {
      if packet.None? then None
      else
        match ParseReply(packet.value)
        case Ok(t) => Some(InNanos(t))
        case Err(_) => None
    }
  }

  /** The time of a response is that of its packet, in nanoseconds, if there is one and it is accepted. */
  lemma TimeMeans(r: Response, t: UnixTime)
    ensures r.packet.None? ==> r.Time().None?
    ensures r.packet.Some? && ParseReply(r.packet.value) == Ok(t) ==>
              r.Time() == Some(t.secs * 1_000_000_000 + t.nanos)
    ensures r.packet.Some? && ParseReply(r.packet.value).Err? ==> r.Time().None?
  {
  }

  datatype BootstrapError = NoServers | NoUsableTime | SetFailed

  predicate Usable(r: Response, now: nat, floor: nat) {
    r.Time().Some? && now < r.Time().value && floor < r.Time().value <= floor + MAX_PLAUSIBLE_AHEAD
  }

  /** Which reply is the first usable one; their number if none is. */
  function FirstUsable(rs: seq<Response>, now: nat, floor: nat): (k: nat)
    ensures k <= |rs| && (k < |rs| ==> Usable(rs[k], now, floor))
    ensures forall i :: 0 <= i < k ==> !Usable(rs[i], now, floor)
    ensures k < |rs| ==> rs[k].Time().Some? && now < rs[k].Time().value && floor < rs[k].Time().value
    ensures k < |rs| ==> rs[k].Time().value <= floor + 15 * 365 * 86_400 * 1_000_000_000
    ensures forall i :: 0 <= i < k && rs[i].Time().Some? ==>
              || rs[i].Time().value <= now || rs[i].Time().value <= floor
              || rs[i].Time().value > floor + 15 * 365 * 86_400 * 1_000_000_000
  {
    if rs == [] then 0
    else
      var n := |rs| - 1;
      var k := FirstUsable(rs[..n], now, floor);
      if k < n || Usable(rs[n], now, floor) then k else n + 1
  }

  /** How long the first `n` queries take together. */
  function Asking(rs: seq<Response>, n: nat): Duration
    requires n <= |rs|
  {
    if n == 0 then 0 else Asking(rs, n - 1) + rs[n - 1].took
  }

  /** Asks one server after the other until a reply is usable, while the clock goes on. */
  method Ask(clock: Clock, replies: seq<Response>, now: nat, floor: nat) returns (k: nat)
    modifies clock`time
    ensures k == FirstUsable(replies, now, floor)
    ensures clock.time == old(clock.time) + Asking(replies, Min(k + 1, |replies|))
  {
    k := 0;
    while k < |replies|
      invariant k <= |replies| && clock.time == old(clock.time) + Asking(replies, k)
      invariant forall j :: 0 <= j < k ==> !Usable(replies[j], now, floor)
    {
      clock.Pass(replies[k].took);
      var time := replies[k].Time();
      if time.Some? && !(time.value <= now || time.value <= floor) && !(time.value > floor + MAX_PLAUSIBLE_AHEAD) {
        return;
      }
      k := k + 1;
    }
  }

  /** `replies` are those of the servers looked up, in the order they are asked. */
  predicate RepliesFit(lookups: seq<Lookup>, replies: seq<Response>) {
    |replies| == |Pool(lookups)|
  }

  /**
   * Asks the servers looked up, one after the other, and sets the clock at most once: to the first
   * usable reply, at the moment that reply is in. If the clock refuses it, or no reply is usable,
   * the time just goes on. `asked` are the servers that were asked.
   */
  method Bootstrap(clock: Clock, lookups: seq<Lookup>, replies: seq<Response>, now: nat, floor: nat)
    returns (r: Result<nat, BootstrapError>, asked: seq<Address>)
    requires RepliesFit(lookups, replies)
    modifies clock
    ensures var k := FirstUsable(replies, now, floor);
            var n := Min(k + 1, |replies|);
            var at := old(clock.time) + Resolving(lookups) + Asking(replies, n);
            && asked == Pool(lookups)[..n]
            && (k < |replies| ==>
                  var t := replies[k].Time().value;
                  && clock.attempts == old(clock.attempts) + [Attempt(at, t)]
                  && r == (if replies[k].settable then Ok(t) else Err(SetFailed))
                  && clock.time == if replies[k].settable then t else at)
            && (k == |replies| ==>
                  && clock.attempts == old(clock.attempts) && clock.time == at
                  && r == Err(if replies == [] then NoServers else NoUsableTime))
  {
    var servers := ResolvePool(clock, lookups);
    if servers == [] {
      return Err(NoServers), [];
    }
    var k := Ask(clock, replies, now, floor);
    asked := servers[..Min(k + 1, |servers|)];
    if k == |servers| {
      return Err(NoUsableTime), asked;
    }
    var t := replies[k].Time().value;
    var ok := clock.Set(t, replies[k].settable);
    return if ok then Ok(t) else Err(SetFailed), asked;
  }

  /**
   * Never touches a clock at or past the build time. For any other at most six servers are asked,
   * IPv4 before IPv6, and it is asked to take the first usable reply, which is past the build and
   * at most fifteen years; from where it stands by then, that is a step forward exactly if it has
   * not reached the reply yet.
   */
  method EnsureSaneClock(clock: Clock, floor: Option<nat>, lookups: seq<Lookup>, replies: seq<Response>)
    returns (asked: seq<Address>)
    requires RepliesFit(lookups, replies)
    modifies clock
    ensures asked <= Pool(lookups) && |asked| <= MAX_NTP_SERVERS
    ensures forall i, j :: 0 <= i < j < |asked| && asked[i].v6 ==> asked[j].v6
    ensures floor.None? || floor.value <= old(clock.time) ==>
              asked == [] && clock.time == old(clock.time) && clock.attempts == old(clock.attempts)
    ensures floor.Some? && old(clock.time) < floor.value ==>
              var k := FirstUsable(replies, old(clock.time), floor.value);
              var n := Min(k + 1, |replies|);
              var at := old(clock.time) + Resolving(lookups) + Asking(replies, n);
              && |asked| == n
              && (k < |replies| ==>
                    var t := replies[k].Time().value;
                    && floor.value < t <= floor.value + MAX_PLAUSIBLE_AHEAD
                    && clock.attempts == old(clock.attempts) + [Attempt(at, t)]
                    && clock.time == if replies[k].settable then t else at)
              && (k == |replies| ==> clock.attempts == old(clock.attempts) && clock.time == at)
  {
    asked := [];
    if floor.None? {
      return;
    }
    var now := clock.time;
    if now >= floor.value {
      return;
    }
    PoolOrder(lookups);
    var _, servers := Bootstrap(clock, lookups, replies, now, floor.value);
    asked := servers;
  }

  // ---- Whether the step is forward ----

  /** The three hosts are looked up and the servers asked within their timeouts. */
  predicate InTime(lookups: seq<Lookup>, replies: seq<Response>) {
    && |lookups| <= NTP_POOL_HOSTS && (forall i :: 0 <= i < |lookups| ==> lookups[i].took <= RESOLVE_TIMEOUT)
    && RepliesFit(lookups, replies) && (forall i :: 0 <= i < |replies| ==> replies[i].took <= SNTP_TIMEOUT)
  }

  /** The longest a bootstrap can take: 48 s. */
  const LONGEST_BOOTSTRAP: Duration := NTP_POOL_HOSTS * RESOLVE_TIMEOUT + MAX_NTP_SERVERS * SNTP_TIMEOUT

  lemma {:induction false} AskingBounded(replies: seq<Response>, n: nat)
    requires n <= |replies| && forall i :: 0 <= i < |replies| ==> replies[i].took <= SNTP_TIMEOUT
    ensures Asking(replies, n) <= n * SNTP_TIMEOUT
  {
    if n > 0 { AskingBounded(replies, n - 1); }
  }

  /** The clock, read as `now`, is asked to go forward and not back. */
  predicate StepsForward(lookups: seq<Lookup>, replies: seq<Response>, now: nat, floor: nat)
    requires FirstUsable(replies, now, floor) < |replies|
  {
    var k := FirstUsable(replies, now, floor);
    now + Resolving(lookups) + Asking(replies, k + 1) < replies[k].Time().value
  }

  ghost predicate AlwaysForward(now: nat, floor: nat) {
    forall lookups: seq<Lookup>, replies: seq<Response> ::
      InTime(lookups, replies) && FirstUsable(replies, now, floor) < |replies| ==>
        StepsForward(lookups, replies, now, floor)
  }

  lemma LongEnough(lookups: seq<Lookup>, replies: seq<Response>, now: nat, floor: nat)
    requires now + LONGEST_BOOTSTRAP <= floor
    requires InTime(lookups, replies) && FirstUsable(replies, now, floor) < |replies|
    ensures StepsForward(lookups, replies, now, floor)
  {
    ResolvingBounded([], lookups);
    AskingBounded(replies, FirstUsable(replies, now, floor) + 1);
    PoolOrder(lookups);
  }

  function AsUnixTime(nanos: nat): UnixTime {
    UnixTime(nanos / NANOS_PER_SEC, nanos % NANOS_PER_SEC)
  }

  /** A time a server can send. */
  predicate Sendable(nanos: nat) {
    AsUnixTime(nanos).secs < ERA && AsUnixTime(nanos) != ZERO_STAMP
  }

  /** The packet of a stratum-1 server that sends `nanos`. */
  function PacketOf(nanos: nat): seq<Byte>
    requires Sendable(nanos)
  {
    var t := AsUnixTime(nanos);
    [0x24, 1] + seq(38, i => 0) + ToBytes(NtpSecs(t.secs)) + ToBytes(NtpFraction(t.nanos))
  }

  lemma PacketIsRead(nanos: nat)
    requires Sendable(nanos)
    ensures ParseReply(PacketOf(nanos)) == Ok(AsUnixTime(nanos)) && InNanos(AsUnixTime(nanos)) == nanos
  {
    var t, buf := AsUnixTime(nanos), PacketOf(nanos);
    assert buf[40..44] == ToBytes(NtpSecs(t.secs)) && buf[44..48] == ToBytes(NtpFraction(t.nanos));
    assert HasFields(buf, 0, 4, 1, NtpSecs(t.secs), NtpFraction(t.nanos));
    RoundTrip(buf, 0, 1, t);
  }

  /** Two hosts do not answer, and the third gives six addresses, all as late as can be. */
  const SLOW_LOOKUPS: seq<Lookup> :=
    [Lookup([], RESOLVE_TIMEOUT), Lookup([], RESOLVE_TIMEOUT), Lookup(seq(6, i => Address(0, false)), RESOLVE_TIMEOUT)]

  /** Every server times out but the last, which sends the time just past the build. */
  function SlowReplies(floor: nat): seq<Response>
    requires Sendable(floor + 1)
  {
    var silent := Response(None, SNTP_TIMEOUT, true);
    [silent, silent, silent, silent, silent, Response(Some(PacketOf(floor + 1)), SNTP_TIMEOUT, true)]
  }

  lemma SlowLookups()
    ensures |Pool(SLOW_LOOKUPS)| == 6 && Resolving(SLOW_LOOKUPS) == 3 * RESOLVE_TIMEOUT
  {
    var six := seq(6, i => Address(0, false));
    assert SLOW_LOOKUPS[1..][1..] == SLOW_LOOKUPS[2..];
    assert [] + SLOW_LOOKUPS[0].found == [] && [] + SLOW_LOOKUPS[1].found == [] && [] + six == six;
    assert CollectedFrom([], SLOW_LOOKUPS[2..]) == six && ResolvingFrom([], SLOW_LOOKUPS[2..]) == RESOLVE_TIMEOUT;
    assert CollectedFrom([], SLOW_LOOKUPS[1..]) == six && ResolvingFrom([], SLOW_LOOKUPS[1..]) == 2 * RESOLVE_TIMEOUT;
  }

  lemma SlowAsking(floor: nat)
    requires Sendable(floor + 1)
    ensures Asking(SlowReplies(floor), 6) == 6 * SNTP_TIMEOUT
  {
    var rs := SlowReplies(floor);
    assert Asking(rs, 1) == SNTP_TIMEOUT;
    assert Asking(rs, 3) == 3 * SNTP_TIMEOUT;
    assert Asking(rs, 5) == 5 * SNTP_TIMEOUT;
  }

  lemma SlowIsUsable(now: nat, floor: nat, i: nat)
    requires now < floor && Sendable(floor + 1) && i < 6
    ensures Usable(SlowReplies(floor)[i], now, floor) <==> i == 5
    ensures SlowReplies(floor)[5].Time() == Some(floor + 1)
  {
    PacketIsRead(floor + 1);
  }

  lemma FirstUsableIs(rs: seq<Response>, now: nat, floor: nat, k: nat)
    requires k < |rs| && forall i :: 0 <= i < |rs| ==> (Usable(rs[i], now, floor) <==> i == k)
    ensures FirstUsable(rs, now, floor) == k
  {
  }

  lemma SlowServersAnswerLast(now: nat, floor: nat)
    requires now < floor && Sendable(floor + 1)
    ensures InTime(SLOW_LOOKUPS, SlowReplies(floor))
    ensures FirstUsable(SlowReplies(floor), now, floor) == 5 && SlowReplies(floor)[5].Time() == Some(floor + 1)
    ensures Resolving(SLOW_LOOKUPS) + Asking(SlowReplies(floor), 6) == LONGEST_BOOTSTRAP
  {
    SlowLookups();
    SlowAsking(floor);
    forall i | 0 <= i < 6 ensures Usable(SlowReplies(floor)[i], now, floor) <==> i == 5 {
      SlowIsUsable(now, floor, i);
    }
    SlowIsUsable(now, floor, 5);
    FirstUsableIs(SlowReplies(floor), now, floor, 5);
  }

  /**
   * The step is forward whatever hosts and servers do within their timeouts exactly if the clock
   * starts at least 48 s before the build time.
   */
  lemma ForwardExactly(now: nat, floor: nat)
    requires now < floor && Sendable(floor + 1)
    ensures AlwaysForward(now, floor) <==> now + LONGEST_BOOTSTRAP <= floor
  {
    if now + LONGEST_BOOTSTRAP <= floor {
      forall lookups: seq<Lookup>, replies: seq<Response>
        | InTime(lookups, replies) && FirstUsable(replies, now, floor) < |replies|
        ensures StepsForward(lookups, replies, now, floor)
      {
        LongEnough(lookups, replies, now, floor);
      }
    } else {
      SlowServersAnswerLast(now, floor);
      assert !StepsForward(SLOW_LOOKUPS, SlowReplies(floor), now, floor);
    }
  }

  /** A clock that started a second before the build time is set back, by almost 47 s. */
  method SetsClockBack(floor: nat) returns (clock: Clock)
    requires floor >= NANOS_PER_SEC && Sendable(floor + 1)
    ensures fresh(clock) && clock.time == floor + 1
    ensures clock.attempts == [Attempt(floor + 47 * NANOS_PER_SEC, floor + 1)]
  {
    clock := new Clock(floor - NANOS_PER_SEC);
    SlowServersAnswerLast(clock.time, floor);
    var _ := EnsureSaneClock(clock, Some(floor), SLOW_LOOKUPS, SlowReplies(floor));
  }
}
