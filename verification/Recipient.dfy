/** The printed form of a mixnet recipient and its parser, over any text codec of keys. */
module Recipient {
  import opened Prelude

  type Key = nat

  datatype Recipient = Recipient(clientIdentity: Key, clientEncryptionKey: Key, gateway: Key)

  datatype ParseError =
    | InvalidFormat
    | InvalidGatewayHalf
    | InvalidClientIdentity
    | InvalidClientEncryptionKey
    | InvalidGatewayKey

  /** How the three kinds of keys are written and read; base58 in the program. */
  datatype Codec = Codec(
    encode: Key -> string,
    decodeIdentity: string -> Option<Key>,
    decodeEncryption: string -> Option<Key>,
    decodeGateway: string -> Option<Key>)

  /** Reading inverts writing, and the separators are never written. */
  ghost predicate Faithful(c: Codec) {
    forall k: Key ::
      && c.decodeIdentity(c.encode(k)) == Some(k)
      && c.decodeEncryption(c.encode(k)) == Some(k)
      && c.decodeGateway(c.encode(k)) == Some(k)
      && '.' !in c.encode(k) && '@' !in c.encode(k)
  }

  /** Only what is written can be read. */
  ghost predicate Canonical(c: Codec) {
    forall s ::
      && (c.decodeIdentity(s).Some? ==> c.encode(c.decodeIdentity(s).value) == s)
      && (c.decodeEncryption(s).Some? ==> c.encode(c.decodeEncryption(s).value) == s)
      && (c.decodeGateway(s).Some? ==> c.encode(c.decodeGateway(s).value) == s)
  }

  function InUnary(k: Key): string {
    seq(k, i => '1')
  }

  function FromUnary(s: string): Option<Key> {
    if forall i :: 0 <= i < |s| ==> s[i] == '1' then Some(|s|) else None
  }

  /** There are such codecs: tally marks, for one. */
  lemma FaithfulCanonicalCodec()
    ensures var c := Codec(InUnary, FromUnary, FromUnary, FromUnary); Faithful(c) && Canonical(c)
  {
    forall s | FromUnary(s).Some? ensures InUnary(FromUnary(s).value) == s {
    }
  }

  function Count(s: string, sep: char): nat {
    if s == "" then 0 else (if s[0] == sep then 1 else 0) + Count(s[1..], sep)
  }

  /** The pieces between the separators; one more than there are separators. */
  function Split(s: string, sep: char): (r: seq<string>)
    ensures |r| == Count(s, sep) + 1
    ensures forall i :: 0 <= i < |r| ==> sep !in r[i]
  {
    if s == "" then [""]
    else
      var rest := Split(s[1..], sep);
      if s[0] == sep then [""] + rest else [[s[0]] + rest[0]] + rest[1..]
  }

  function Join(parts: seq<string>, sep: char): string
    requires parts != []
  {
    if |parts| == 1 then parts[0] else parts[0] + [sep] + Join(parts[1..], sep)
  }

  function Print(c: Codec, r: Recipient): string {
    c.encode(r.clientIdentity) + "." + c.encode(r.clientEncryptionKey) + "@" + c.encode(r.gateway)
  }

  function Parse(c: Codec, s: string): Result<Recipient, ParseError> {
    var halves := Split(s, '@');
    if |halves| != 2 then Err(InvalidFormat)
    else
      var client := Split(halves[0], '.');
      if |client| != 2 then Err(InvalidGatewayHalf)
      else if c.decodeIdentity(client[0]).None? then Err(InvalidClientIdentity)
      else if c.decodeEncryption(client[1]).None? then Err(InvalidClientEncryptionKey)
      else if c.decodeGateway(halves[1]).None? then Err(InvalidGatewayKey)
      else Ok(Recipient(c.decodeIdentity(client[0]).value, c.decodeEncryption(client[1]).value,
                        c.decodeGateway(halves[1]).value))
  }

  lemma {:induction false} JoinOfSplit(s: string, sep: char)
    ensures Join(Split(s, sep), sep) == s
  {
    if s != "" {
      JoinOfSplit(s[1..], sep);
      var rest := Split(s[1..], sep);
      if s[0] == sep {
        assert Split(s, sep)[1..] == rest;
      } else if |rest| > 1 {
        assert Split(s, sep)[1..] == rest[1..];
      }
    }
  }

  /** Text without the separator, the separator, and any text: the first piece is the first text. */
  lemma {:induction false} SplitAfter(a: string, b: string, sep: char)
    requires sep !in a
    ensures Split(a + [sep] + b, sep) == [a] + Split(b, sep)
  {
    var s := a + [sep] + b;
    if a == "" {
      assert s[1..] == b;
    } else {
      SplitAfter(a[1..], b, sep);
      assert s[1..] == a[1..] + [sep] + b;
      assert a == [a[0]] + a[1..];
    }
  }

  lemma {:induction false} SplitWithout(a: string, sep: char)
    requires sep !in a
    ensures Split(a, sep) == [a]
  {
    if a != "" {
      SplitWithout(a[1..], sep);
      assert a == [a[0]] + a[1..];
    }
  }

  /** Every recipient is read back from what is printed for it. */
  lemma ParseOfPrint(c: Codec, r: Recipient)
    requires Faithful(c)
    ensures Parse(c, Print(c, r)) == Ok(r)
  {
    var id, enc, gw := c.encode(r.clientIdentity), c.encode(r.clientEncryptionKey), c.encode(r.gateway);
    var half := id + "." + enc;
    assert Print(c, r) == half + "@" + gw;
    SplitAfter(half, gw, '@');
    SplitWithout(gw, '@');
    SplitAfter(id, enc, '.');
    SplitWithout(enc, '.');
  }

  predicate WellFormed(c: Codec, id: string, enc: string, gw: string) {
    && '@' !in id && '.' !in id && '@' !in enc && '.' !in enc && '@' !in gw
    && c.decodeIdentity(id).Some? && c.decodeEncryption(enc).Some? && c.decodeGateway(gw).Some?
  }

  /** An accepted string is its three pieces put together again. */
  lemma AcceptedPieces(c: Codec, s: string)
    requires Parse(c, s).Ok?
    ensures var halves := Split(s, '@');
            var client := Split(halves[0], '.');
            && |halves| == 2 && |client| == 2
            && s == client[0] + "." + client[1] + "@" + halves[1]
            && client[0] + "." + client[1] == halves[0]
  {
    var halves := Split(s, '@');
    var client := Split(halves[0], '.');
    JoinOfSplit(s, '@');
    JoinOfSplit(halves[0], '.');
    assert halves[1..] == [halves[1]] && client[1..] == [client[1]];
  }

  /** The printed form: identity, dot, encryption key, at sign, gateway. */
  lemma PrintedForm(c: Codec, r: Recipient)
    ensures Print(c, r) ==
            c.encode(r.clientIdentity) + "." + c.encode(r.clientEncryptionKey) + "@" + c.encode(r.gateway)
  {
  }

  /** Which key is read from where: the identity before the dot, the encryption key after it, the gateway last. */
  lemma ParsedKeys(c: Codec, id: string, enc: string, gw: string)
    requires '@' !in id && '.' !in id && '@' !in enc && '.' !in enc && '@' !in gw
    ensures Parse(c, id + "." + enc + "@" + gw) ==
            match (c.decodeIdentity(id), c.decodeEncryption(enc), c.decodeGateway(gw))
            case (None, _, _) => Err(InvalidClientIdentity)
            case (Some(_), None, _) => Err(InvalidClientEncryptionKey)
            case (Some(_), Some(_), None) => Err(InvalidGatewayKey)
            case (Some(i), Some(e), Some(g)) => Ok(Recipient(i, e, g))
  {
    var half := id + "." + enc;
    SplitAfter(half, gw, '@');
    SplitWithout(gw, '@');
    SplitAfter(id, enc, '.');
    SplitWithout(enc, '.');
  }

  /** A string is accepted exactly if it has the printed shape and its three keys can be read. */
  lemma AcceptedShape(c: Codec, s: string)
    ensures Parse(c, s).Ok? <==>
            exists id, enc, gw :: s == id + "." + enc + "@" + gw && WellFormed(c, id, enc, gw)
  {
    if Parse(c, s).Ok? {
      AcceptedPieces(c, s);
      var halves := Split(s, '@');
      var client := Split(halves[0], '.');
      assert WellFormed(c, client[0], client[1], halves[1]) by {
        assert '@' !in client[0] + "." + client[1];
      }
    }
    forall id, enc, gw | s == id + "." + enc + "@" + gw && WellFormed(c, id, enc, gw) ensures Parse(c, s).Ok? {
      ParsedKeys(c, id, enc, gw);
    }
  }

  /** The two shape errors: not exactly one '@', and not exactly one '.' before it. */
  lemma RejectedShapes(c: Codec, s: string)
    ensures Parse(c, s) == Err(InvalidFormat) <==> Count(s, '@') != 1
    ensures Parse(c, s) == Err(InvalidGatewayHalf) <==>
            Count(s, '@') == 1 && Count(s[..IndexOf(s, '@')], '.') != 1
  {
    FirstPiece(s, '@');
    var halves := Split(s, '@');
    if |halves| == 2 {
      var client := Split(halves[0], '.');
      assert |client| == Count(s[..IndexOf(s, '@')], '.') + 1;
    }
  }

  /** The separators are counted with their multiplicity. */
  lemma {:induction false} CountMeans(s: string, sep: char)
    ensures Count(s, sep) == multiset(s)[sep]
  {
    if s != "" {
      CountMeans(s[1..], sep);
      assert s == [s[0]] + s[1..];
    }
  }

  function IndexOf(s: string, sep: char): (i: nat)
    ensures i <= |s| && sep !in s[..i] && (i < |s| ==> s[i] == sep)
  {
    if s == "" || s[0] == sep then 0 else 1 + IndexOf(s[1..], sep)
  }

  lemma {:induction false} FirstPiece(s: string, sep: char)
    ensures Split(s, sep)[0] == s[..IndexOf(s, sep)]
  {
    if s != "" && s[0] != sep {
      FirstPiece(s[1..], sep);
      assert s[..IndexOf(s, sep)] == [s[0]] + s[1..][..IndexOf(s[1..], sep)];
    }
  }

  /** With a canonical codec, printing what was parsed gives the same string back. */
  lemma PrintOfParse(c: Codec, s: string)
    requires Canonical(c) && Parse(c, s).Ok?
    ensures Print(c, Parse(c, s).value) == s
  {
    AcceptedPieces(c, s);
  }
}
