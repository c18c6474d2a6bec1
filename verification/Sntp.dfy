/** SNTP replies: the 48-byte packet and the time it carries, across the 2036 era change. */
module Sntp {
  import opened Prelude

  type Byte = x: int | 0 <= x < 256

  const ERA: nat := 0x1_0000_0000
  const HALF_ERA: nat := 0x8000_0000
  const NTP_UNIX_OFFSET: nat := 2_208_988_800
  const NANOS_PER_SEC: nat := 1_000_000_000

  type Word = x: nat | x < ERA

  /** Time since the Unix epoch. */
  datatype UnixTime = UnixTime(secs: nat, nanos: nat)

  datatype ReplyError = Short | NotServerMode | Unsynchronized | UnusableStratum | ZeroTimestamp

  function BigEndian(b: seq<Byte>): Word
    requires |b| == 4
  {
    b[0] as int * 0x100_0000 + b[1] as int * 0x1_0000 + b[2] as int * 0x100 + b[3] as int
  }

  function ToBytes(w: Word): seq<Byte> {
    [w / 0x100_0000, w / 0x1_0000 % 0x100, w / 0x100 % 0x100, w % 0x100]
  }

  lemma BigEndianInverts(w: Word)
    ensures BigEndian(ToBytes(w)) == w
  {
    var a, b, c := w / 0x100, w / 0x1_0000, w / 0x100_0000;
    assert a / 0x100 == b && b / 0x100 == c;
    assert w == a * 0x100 + w % 0x100 && a == b * 0x100 + a % 0x100 && b == c * 0x100 + b % 0x100;
  }

  /** Seconds below the 1970 offset are read as the era that starts in 2036. */
  function UnixSecs(secs: Word): nat {
    if secs >= NTP_UNIX_OFFSET then secs - NTP_UNIX_OFFSET else secs + ERA - NTP_UNIX_OFFSET
  }

  function Nanos(frac: Word): nat {
    frac * NANOS_PER_SEC / ERA
  }

  function ParseReply(buf: seq<Byte>): Result<UnixTime, ReplyError> {
    if |buf| < 48 then Err(Short)
    else
      var li, mode, stratum := buf[0] / 64, buf[0] % 8, buf[1];
      if mode != 4 then Err(NotServerMode)
      else if li == 3 then Err(Unsynchronized)
      else if !(1 <= stratum <= 15) then Err(UnusableStratum)
      else
        var secs, frac := BigEndian(buf[40..44]), BigEndian(buf[44..48]);
        if secs == 0 && frac == 0 then Err(ZeroTimestamp)
        else Ok(UnixTime(UnixSecs(secs), Nanos(frac)))
  }

  /**
   * What is read, in terms of the bytes of any packet. It needs 48 of them, server mode in the low
   * bits of the first, a leap indicator other than 3 in its high bits, a stratum from 1 to 15 in the
   * second, and a transmit time other than zero from byte 40 on. That time counts from 1900, 70
   * years and 17 leap days before the Unix epoch, modulo 2^32 s; its fraction is in 2^-32 s.
   */
  lemma ReplyMeans(buf: seq<Byte>)
    ensures |buf| < 48 ==> ParseReply(buf).Err?
    ensures |buf| >= 48 ==>
            var secs := buf[40] as int * 16_777_216 + buf[41] as int * 65_536 + buf[42] as int * 256 + buf[43] as int;
            var frac := buf[44] as int * 16_777_216 + buf[45] as int * 65_536 + buf[46] as int * 256 + buf[47] as int;
            && (ParseReply(buf).Ok? <==>
                  buf[0] % 8 == 4 && buf[0] / 64 != 3 && 1 <= buf[1] <= 15 && (secs != 0 || frac != 0))
            && (ParseReply(buf).Ok? ==>
                  && ParseReply(buf).value.secs == (secs - (70 * 365 + 17) * 86_400) % 0x1_0000_0000
                  && ParseReply(buf).value.nanos == frac * 1_000_000_000 / 0x1_0000_0000)
  {
    if |buf| >= 48 {
      var b, b' := buf[40..44], buf[44..48];
      assert b[0] == buf[40] && b[1] == buf[41] && b[2] == buf[42] && b[3] == buf[43];
      assert b'[0] == buf[44] && b'[1] == buf[45] && b'[2] == buf[46] && b'[3] == buf[47];
    }
  }

  /**
   * A packet with these fields. Its version, its length beyond 48 bytes and the 38 bytes between
   * the stratum and the transmit time are whatever they are.
   */
  predicate HasFields(buf: seq<Byte>, li: nat, mode: nat, stratum: Byte, secs: Word, frac: Word) {
    && |buf| >= 48 && buf[0] / 64 == li && buf[0] % 8 == mode && buf[1] == stratum
    && buf[40..44] == ToBytes(secs) && buf[44..48] == ToBytes(frac)
  }

  /** The 32-bit NTP seconds of a Unix second, which wrap in 2036. */
  function NtpSecs(unix: nat): Word
    requires unix < ERA
  {
    (unix + NTP_UNIX_OFFSET) % ERA
  }

  /** The smallest NTP fraction that is not before `nanos`. */
  function NtpFraction(nanos: nat): Word
    requires nanos < NANOS_PER_SEC
  {
    var f := (nanos * ERA + NANOS_PER_SEC - 1) / NANOS_PER_SEC;
    FractionInRange(nanos);
    f
  }

  lemma FractionInRange(nanos: nat)
    requires nanos < NANOS_PER_SEC
    ensures (nanos * ERA + NANOS_PER_SEC - 1) / NANOS_PER_SEC < ERA
  {
  }

  lemma UnixSecsInvertsNtpSecs(unix: nat)
    requires unix < ERA
    ensures UnixSecs(NtpSecs(unix)) == unix
  {
  }

  /** The other direction: every NTP second is that of the Unix second it is read as. */
  lemma NtpSecsInvertsUnixSecs(secs: Word)
    ensures UnixSecs(secs) < ERA && NtpSecs(UnixSecs(secs)) == secs
  {
  }

  /** Nanoseconds fit, the product fits 64 bits, and truncation loses less than one nanosecond. */
  lemma NanosInRange(frac: Word)
    ensures Nanos(frac) < NANOS_PER_SEC && frac * NANOS_PER_SEC <= U64_MAX
    ensures Nanos(frac) * ERA <= frac * NANOS_PER_SEC < (Nanos(frac) + 1) * ERA
  {
  }

  lemma NanosInvertsFraction(nanos: nat)
    requires nanos < NANOS_PER_SEC
    ensures Nanos(NtpFraction(nanos)) == nanos
  {
  }

  lemma ToBytesInverts(b: seq<Byte>)
    requires |b| == 4
    ensures ToBytes(BigEndian(b)) == b
  {
    var w := BigEndian(b);
    var high: int := b[0] as int * 0x100 + b[1] as int;
    assert w / 0x100 == high * 0x100 + b[2] as int && w / 0x1_0000 == high && w / 0x100_0000 == b[0];
  }

  /** Whatever else a packet holds, it is accepted or refused by exactly these fields. */
  lemma ParseByFields(buf: seq<Byte>, li: nat, mode: nat, stratum: Byte, secs: Word, frac: Word)
    requires HasFields(buf, li, mode, stratum, secs, frac)
    ensures ParseReply(buf) ==
            if mode != 4 then Err(NotServerMode)
            else if li == 3 then Err(Unsynchronized)
            else if stratum == 0 || stratum > 15 then Err(UnusableStratum)
            else if secs == 0 && frac == 0 then Err(ZeroTimestamp)
            else Ok(UnixTime(UnixSecs(secs), Nanos(frac)))
  {
    BigEndianInverts(secs);
    BigEndianInverts(frac);
  }

  /** The stamp of `t` in a packet of a synchronized server. */
  ghost predicate Carries(buf: seq<Byte>, t: UnixTime) {
    exists li, stratum, secs, frac ::
      && HasFields(buf, li, 4, stratum, secs, frac) && li < 3 && 1 <= stratum <= 15 && !(secs == 0 && frac == 0)
      && t == UnixTime(UnixSecs(secs), Nanos(frac))
  }

  /** The packets accepted, and the time read from them: exactly those that carry it. */
  lemma AcceptedExactly(buf: seq<Byte>, t: UnixTime)
    ensures ParseReply(buf) == Ok(t) <==> Carries(buf, t)
  {
    if ParseReply(buf) == Ok(t) {
      var secs, frac := BigEndian(buf[40..44]), BigEndian(buf[44..48]);
      ToBytesInverts(buf[40..44]);
      ToBytesInverts(buf[44..48]);
      assert HasFields(buf, buf[0] / 64, 4, buf[1], secs, frac);
    }
    if Carries(buf, t) {
      var li, stratum, secs, frac :|
        && HasFields(buf, li, 4, stratum, secs, frac) && li < 3 && 1 <= stratum <= 15 && !(secs == 0 && frac == 0)
        && t == UnixTime(UnixSecs(secs), Nanos(frac));
      ParseByFields(buf, li, 4, stratum, secs, frac);
    }
  }

  /** The one time that cannot be sent: its stamp is all zeros. */
  const ZERO_STAMP := UnixTime(ERA - NTP_UNIX_OFFSET, 0)

  /**
   * Every Unix time up to 2106, to the nanosecond, survives the trip in any packet that carries
   * its stamp; only the all-zero stamp is refused.
   */
  lemma RoundTrip(buf: seq<Byte>, li: nat, stratum: Byte, t: UnixTime)
    requires li < 3 && 1 <= stratum <= 15 && t.secs < ERA && t.nanos < NANOS_PER_SEC
    requires HasFields(buf, li, 4, stratum, NtpSecs(t.secs), NtpFraction(t.nanos))
    ensures ParseReply(buf) == if t == ZERO_STAMP then Err(ZeroTimestamp) else Ok(t)
  {
    ParseByFields(buf, li, 4, stratum, NtpSecs(t.secs), NtpFraction(t.nanos));
    UnixSecsInvertsNtpSecs(t.secs);
    NanosInvertsFraction(t.nanos);
  }

  /** The 64-bit stamp, counted from 1970 and modulo 2^64. */
  function SinceUnixEpoch(secs: Word, frac: Word): nat {
    (secs * ERA + frac - NTP_UNIX_OFFSET * ERA) % (ERA * ERA)
  }

  lemma SinceUnixEpochSplits(secs: Word, frac: Word)
    ensures SinceUnixEpoch(secs, frac) == UnixSecs(secs) * ERA + frac
  {
    var x := secs * ERA + frac - NTP_UNIX_OFFSET * ERA;
    if secs >= NTP_UNIX_OFFSET {
      assert 0 <= x < ERA * ERA;
    } else {
      assert -(ERA * ERA) <= x < 0;
    }
  }

  function InNanos(t: UnixTime): nat {
    t.secs * NANOS_PER_SEC + t.nanos
  }

  /** The branch at 1970 and the two parts together are one division of the stamp. */
  lemma DecodingIsOneDivision(secs: Word, frac: Word)
    ensures InNanos(UnixTime(UnixSecs(secs), Nanos(frac))) == SinceUnixEpoch(secs, frac) * NANOS_PER_SEC / ERA
  {
    SinceUnixEpochSplits(secs, frac);
    NanosInRange(frac);
  }

  predicate NotAfter(a: UnixTime, b: UnixTime) {
    a.secs < b.secs || (a.secs == b.secs && a.nanos <= b.nanos)
  }

  /**
   * Times are ordered exactly as their stamps are, counted from 1970 and modulo 2^64, as far as a
   * nanosecond tells them apart.
   */
  lemma DecodingOrder(secs: Word, frac: Word, secs': Word, frac': Word)
    ensures var t, t' := UnixTime(UnixSecs(secs), Nanos(frac)), UnixTime(UnixSecs(secs'), Nanos(frac'));
            NotAfter(t, t') <==> SinceUnixEpoch(secs, frac) <= SinceUnixEpoch(secs', frac') || t == t'
  {
    SinceUnixEpochSplits(secs, frac);
    SinceUnixEpochSplits(secs', frac');
    NanosMonotone(frac, frac');
    NanosMonotone(frac', frac);
  }

  lemma NanosMonotone(frac: Word, frac': Word)
    ensures frac <= frac' ==> Nanos(frac) <= Nanos(frac')
  {
    NanosInRange(frac);
    NanosInRange(frac');
  }

  /** The era rule of section 3 of RFC 4330: the top bit tells 1900 from 2036. May be before 1970. */
  function RfcUnixSecs(secs: Word): int {
    if secs >= HALF_ERA then secs - NTP_UNIX_OFFSET else secs + ERA - NTP_UNIX_OFFSET
  }

  /** The code departs from that rule exactly for stamps the rule reads as 1968 and 1969. */
  lemma AgreesWithRfcExactly(secs: Word)
    ensures UnixSecs(secs) == RfcUnixSecs(secs) <==> !(HALF_ERA <= secs < NTP_UNIX_OFFSET)
    ensures RfcUnixSecs(secs) < 0 <==> HALF_ERA <= secs < NTP_UNIX_OFFSET
  {
  }
}
