/** The websocket authority header of authority.go: its validation, the payload that is signed and the
    header that is sent. Randomness, the clock and the signer are parameters. */
module Authority {
  import opened Basics
  import Hex

  const MAX_ADDRESS := 2048
  const MAX_SIGNATURE := 8192
  const NONCE_SIZE := 32
  const DOMAIN := "read-node/ws-authority/v3"

  type Int64 = t: int | -0x8000_0000_0000_0000 <= t < 0x8000_0000_0000_0000

  datatype Error = InvalidConfiguration | Canceled | RandomnessFailed | SigningFailed | InvalidSignature

  datatype Result<+T> = Success(value: T) | Failure(error: Error)

  /** What the header is made of. */
  datatype Parts = Parts(address: string, stamp: Int64, nonce: Bytes, signature: Bytes)

  // ---- decimal numbers, as strconv.FormatInt prints them ----

  function DecimalDigit(d: nat): (c: char)
    requires d < 10
    ensures '0' <= c <= '9' && c as int - '0' as int == d
  {
    (d + '0' as int) as char
  }

  function FormatNat(n: nat): (s: string)
    ensures s != ""
    ensures forall i | 0 <= i < |s| :: '0' <= s[i] <= '9'
  {
    if n < 10 then [DecimalDigit(n)] else FormatNat(n / 10) + [DecimalDigit(n % 10)]
  }

  function FormatInt(n: int): (s: string)
    ensures forall i | 0 <= i < |s| :: '0' <= s[i] <= '9' || s[i] == '-'
  {
    if n < 0 then "-" + FormatNat(-n) else FormatNat(n)
  }

  function ParseNat(s: string): (r: int)
    requires forall i | 0 <= i < |s| :: '0' <= s[i] <= '9'
  {
    if s == "" then 0 else ParseNat(s[..|s| - 1]) * 10 + (s[|s| - 1] as int - '0' as int)
  }

  function Power10(k: nat): (r: nat) {
    if k == 0 then 1 else 10 * Power10(k - 1)
  }

  lemma {:induction false} ParseFormatNat(n: nat)
    ensures ParseNat(FormatNat(n)) == n
  {
    var s := FormatNat(n);
    if n < 10 {
      assert s[..|s| - 1] == "";
    } else {
      assert s[..|s| - 1] == FormatNat(n / 10);
      ParseFormatNat(n / 10);
    }
  }

  lemma {:induction false} FormatNatLength(n: nat, k: nat)
    requires k > 0 && n < Power10(k)
    ensures |FormatNat(n)| <= k
  {
    if n >= 10 {
      assert k > 1 by { assert Power10(1) == 10 * Power10(0); }
      assert n / 10 < Power10(k - 1) by { assert Power10(k) == 10 * Power10(k - 1); }
      FormatNatLength(n / 10, k - 1);
    }
  }

  lemma Power10Values()
    ensures Power10(19) == 10_000_000_000_000_000_000
  {
    assert Power10(4) == 10_000;
    assert Power10(8) == 100_000_000;
    assert Power10(12) == 1_000_000_000_000;
    assert Power10(16) == 10_000_000_000_000_000;
  }

  lemma StampLength(t: Int64)
    ensures |FormatInt(t)| <= 20
  {
    assert Power10(19) == 10_000_000_000_000_000_000 by {
      Power10Values();
    }
    var magnitude: int := t;
    FormatNatLength(if magnitude < 0 then -magnitude else magnitude, 19);
  }

  lemma {:induction false} NoLeadingZero(n: nat)
    requires n > 0
    ensures FormatNat(n)[0] != '0'
  {
    if n >= 10 {
      NoLeadingZero(n / 10);
    }
  }

  /** The printed number reads back: a sign exactly for a negative number, then digits without a leading zero. */
  lemma FormatIntReadsBack(n: int)
    ensures var s := FormatInt(n);
            if n < 0 then s[0] == '-' && (forall i | 1 <= i < |s| :: '0' <= s[i] <= '9') && ParseNat(s[1..]) == -n
            else (forall i | 0 <= i < |s| :: '0' <= s[i] <= '9') && ParseNat(s) == n
    ensures n > 0 ==> FormatInt(n)[0] != '0'
    ensures n < 0 ==> FormatInt(n)[1] != '0'
  {
    var m := if n < 0 then -n else n;
    ParseFormatNat(m);
    if n != 0 { NoLeadingZero(m); }
    if n < 0 { assert FormatInt(n)[1..] == FormatNat(m); }
  }

  lemma FormatIntInjective(a: int, b: int)
    requires FormatInt(a) == FormatInt(b)
    ensures a == b
  {
    ParseFormatNat(if a < 0 then -a else a);
    ParseFormatNat(if b < 0 then -b else b);
    var s := FormatInt(a);
    if a < 0 {
      assert s[0] == '-' && s[1..] == FormatNat(-a);
    }
    if b < 0 {
      assert s[0] == '-' && FormatInt(b)[1..] == FormatNat(-b);
    }
    assert a >= 0 ==> '0' <= FormatNat(a)[0];
    assert b >= 0 ==> '0' <= FormatNat(b)[0];
  }

  // ---- splitting at a separator ----

  /** The pieces between separators; the text without a separator is one piece. */
  function Split(s: string, sep: char): (pieces: seq<string>)
    ensures pieces != []
  {
    if s == "" then [""]
    else if s[0] == sep then [""] + Split(s[1..], sep)
    else var rest := Split(s[1..], sep); [[s[0]] + rest[0]] + rest[1..]
  }

  lemma {:induction false} SplitPlain(s: string, sep: char)
    requires sep !in s
    ensures Split(s, sep) == [s]
  {
    if s != "" {
      SplitPlain(s[1..], sep);
      assert [s[0]] + s[1..] == s;
    }
  }

  lemma {:induction false} SplitFirst(head: string, sep: char, tail: string)
    requires sep !in head
    ensures Split(head + [sep] + tail, sep) == [head] + Split(tail, sep)
  {
    var s := head + [sep] + tail;
    if head == "" {
      assert s[1..] == tail;
    } else {
      assert s[1..] == head[1..] + [sep] + tail;
      SplitFirst(head[1..], sep, tail);
      assert [head[0]] + head[1..] == head;
    }
  }

  /** Five fields joined by the separator. */
  function JoinFive(a: string, b: string, c: string, d: string, e: string, sep: char): (r: string) {
    a + [sep] + (b + [sep] + (c + [sep] + (d + [sep] + e)))
  }

  lemma SplitFive(a: string, b: string, c: string, d: string, e: string, sep: char)
    requires sep !in a && sep !in b && sep !in c && sep !in d && sep !in e
    ensures Split(JoinFive(a, b, c, d, e, sep), sep) == [a, b, c, d, e]
  {
    SplitPlain(e, sep);
    SplitFirst(d, sep, e);
    SplitFirst(c, sep, d + [sep] + e);
    SplitFirst(b, sep, c + [sep] + (d + [sep] + e));
    SplitFirst(a, sep, b + [sep] + (c + [sep] + (d + [sep] + e)));
  }

  // ---- the header ----

  predicate ValidAddress(address: string)
    ensures ValidAddress(address) <==>
            1 <= |address| <= 2048 && forall c | c in address :: c != ';' && c != '\r' && c != '\n'
  {
    && address != "" && |address| <= MAX_ADDRESS
    && ';' !in address && '\r' !in address && '\n' !in address
  }

  predicate ValidParts(p: Parts) {
    ValidAddress(p.address) && |p.nonce| == NONCE_SIZE && 0 < |p.signature| <= MAX_SIGNATURE
  }

  function Payload(address: string, stamp: int, nonce: Bytes): (r: string) {
    DOMAIN + ['\n'] + (address + ['\n'] + (FormatInt(stamp) + ['\n'] + Hex.Encode(nonce)))
  }

  function Header(p: Parts): (r: string) {
    JoinFive(p.address, "v3", FormatInt(p.stamp), Hex.Encode(p.nonce), Hex.Encode(p.signature), ';')
  }

  /** `signer` answers the payload it is given; None stands for its error. */
  method CreateWSAuthorityV3(contextGiven: bool, canceledBefore: bool, canceledAfter: bool, address: string,
                             signer: Option<string -> Option<Bytes>>, random: Option<Bytes>, now: Int64)
    returns (r: Result<string>)
    requires random.Some? ==> |random.value| == NONCE_SIZE
    ensures r.Success? <==>
            && contextGiven && signer.Some? && ValidAddress(address)
            && !canceledBefore && !canceledAfter && random.Some?
            && var signed := (signer.value)(Payload(address, now, random.value));
               signed.Some? && 0 < |signed.value| <= 8192
    ensures r.Success? ==>
            var signed := (signer.value)(Payload(address, now, random.value));
            signed.Some? && r.value == Header(Parts(address, now, random.value, signed.value))
    ensures r.Failure? ==>
            r.error == if !contextGiven || signer.None? || !ValidAddress(address) then InvalidConfiguration
                       else if canceledBefore then Canceled
                       else if random.None? then RandomnessFailed
                       else if (signer.value)(Payload(address, now, random.value)).None? then SigningFailed
                       else if canceledAfter then Canceled
                       else InvalidSignature
  {
    if !contextGiven || signer.None? || address == "" || |address| > 2048 ||
       ';' in address || '\r' in address || '\n' in address
    {
      return Failure(InvalidConfiguration);
    }
    if canceledBefore {
      return Failure(Canceled);
    }
    if random.None? {
      return Failure(RandomnessFailed);
    }
    var nonce := random.value;
    var stamp := FormatInt(now);
    var nonceHex := Hex.Encode(nonce);
    var payload := "read-node/ws-authority/v3" + ['\n'] + (address + ['\n'] + (stamp + ['\n'] + nonceHex));
    var result := (signer.value)(payload);
    if result.None? {
      return Failure(SigningFailed);
    }
    if canceledAfter {
      return Failure(Canceled);
    }
    if |result.value| == 0 || |result.value| > 8192 {
      return Failure(InvalidSignature);
    }
    var signature := Hex.Encode(result.value);
    return Success(address + [';'] + ("v3" + [';'] + (stamp + [';'] + (nonceHex + [';'] + signature))));
  }

  lemma HexHasNo(bytes: Bytes, c: char)
    requires !Hex.IsLowerHex(c)
    ensures c !in Hex.Encode(bytes)
  {
    forall i | 0 <= i < 2 * |bytes| ensures Hex.Encode(bytes)[i] != c {
      Hex.EncodedDigits(bytes, i);
    }
  }

  /** The header splits into exactly its five fields. */
  lemma HeaderFields(p: Parts)
    requires ValidParts(p)
    ensures Split(Header(p), ';') ==
            [p.address, "v3", FormatInt(p.stamp), Hex.Encode(p.nonce), Hex.Encode(p.signature)]
  {
    HexHasNo(p.nonce, ';');
    HexHasNo(p.signature, ';');
    SplitFive(p.address, "v3", FormatInt(p.stamp), Hex.Encode(p.nonce), Hex.Encode(p.signature), ';');
  }

  /** The client's authority fields. */
  class Configuration {
    var authorityAddress: string
    var authoritySigner: Option<string -> Option<Bytes>>

    /** What a dial relies on: a signer comes with a usable address, and without one no address is kept. */
    predicate Valid()
      reads this
    {
      if authoritySigner.Some? then ValidAddress(authorityAddress) else authorityAddress == ""
    }

    constructor ()
      ensures Valid() && authoritySigner == None
    {
      authorityAddress, authoritySigner := "", None;
    }

    method WithWSAuthority(address: string, sign: Option<string -> Option<Bytes>>) returns (ok: bool)
      requires Valid()
      modifies this
      ensures Valid()
      ensures ok == (sign.Some? ==> ValidAddress(address))
      ensures ok ==> authoritySigner == sign && (sign.Some? ==> authorityAddress == address)
      ensures !ok ==> authorityAddress == old(authorityAddress) && authoritySigner == old(authoritySigner)
    {
      if sign.Some? && (address == "" || |address| > 2048 || ';' in address || '\r' in address || '\n' in address) {
        return false;
      }
      authorityAddress := address;
      authoritySigner := sign;
      if sign.None? {
        authorityAddress := "";
      }
      return true;
    }

    /** runSession's use of the fields: a configured signer never meets an invalid configuration. */
    method DialAuthority(canceledBefore: bool, canceledAfter: bool, random: Option<Bytes>, now: Int64)
      returns (header: Option<Result<string>>)
      requires Valid()
      requires random.Some? ==> |random.value| == NONCE_SIZE
      ensures header.Some? <==> authoritySigner.Some?
      ensures header.Some? && header.value.Failure? ==> header.value.error != InvalidConfiguration
      ensures header.Some? && header.value.Success? ==>
              |Split(header.value.value, ';')| == 5 && Split(header.value.value, ';')[0] == authorityAddress
    {
      if authoritySigner.None? {
        return None;
      }
      var r := CreateWSAuthorityV3(true, canceledBefore, canceledAfter, authorityAddress, authoritySigner, random, now);
      if r.Success? {
        ghost var signed := (authoritySigner.value)(Payload(authorityAddress, now, random.value));
        HeaderFields(Parts(authorityAddress, now, random.value, signed.value));
      }
      return Some(r);
    }
  }

  /** No two inputs print the same header. */
  lemma HeaderRecoversInputs(p: Parts, q: Parts)
    requires ValidParts(p) && ValidParts(q) && Header(p) == Header(q)
    ensures p == q
  {
    HeaderFields(p);
    HeaderFields(q);
    var f, g := Split(Header(p), ';'), Split(Header(q), ';');
    assert f[0] == g[0] && f[2] == g[2] && f[3] == g[3] && f[4] == g[4];
    FormatIntInjective(p.stamp, q.stamp);
    Hex.EncodeInjective(p.nonce, q.nonce);
    Hex.EncodeInjective(p.signature, q.signature);
  }

  lemma HeaderLength(p: Parts)
    requires ValidParts(p)
    ensures |Header(p)| <= 18522
  {
    StampLength(p.stamp);
  }

  lemma PayloadFields(address: string, stamp: int, nonce: Bytes)
    requires ValidAddress(address)
    ensures Split(Payload(address, stamp, nonce), '\n') ==
            ["read-node/ws-authority/v3", address, FormatInt(stamp), Hex.Encode(nonce)]
  {
    var n, t, h := ['\n'], FormatInt(stamp), Hex.Encode(nonce);
    HexHasNo(nonce, '\n');
    SplitFirst(DOMAIN, '\n', address + n + (t + n + h));
    SplitFirst(address, '\n', t + n + h);
    SplitFirst(t, '\n', h);
    SplitPlain(h, '\n');
  }

  /** What is signed determines the address, the stamp and the nonce it was signed for. */
  lemma PayloadInjective(a: string, s: int, n: Bytes, b: string, t: int, m: Bytes)
    requires ValidAddress(a) && ValidAddress(b)
    requires Payload(a, s, n) == Payload(b, t, m)
    ensures a == b && s == t && n == m
  {
    PayloadFields(a, s, n);
    PayloadFields(b, t, m);
    var f, g := Split(Payload(a, s, n), '\n'), Split(Payload(b, t, m), '\n');
    assert f[1] == g[1] && f[2] == g[2] && f[3] == g[3];
    FormatIntInjective(s, t);
    Hex.EncodeInjective(n, m);
  }

  /** A payload can never be mistaken for a header: they are distinct texts whatever they carry. */
  lemma PayloadIsNotAHeader(p: Parts, address: string, stamp: int, nonce: Bytes)
    requires ValidParts(p) && ValidAddress(address)
    ensures Header(p) != Payload(address, stamp, nonce)
  {
    var payload := Payload(address, stamp, nonce);
    assert payload[|DOMAIN|] == '\n';
    HexHasNo(p.nonce, '\n');
    HexHasNo(p.signature, '\n');
    assert '\n' !in Header(p);
  }
}
