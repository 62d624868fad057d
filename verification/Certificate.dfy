/** The certificate pin policy of certificate.go.
    SHA-256 and the check of one certificate's signature by another are parameters. */
module Certificate {
  import opened Basics
  import Hex

  const SHA256_SIZE := 32

  type Digest = d: Bytes | |d| == SHA256_SIZE witness seq(SHA256_SIZE, _ => 0)

  datatype Cert = Cert(raw: Bytes)

  /** What the library calls compute: the digest of a DER certificate, and CheckSignatureFrom. */
  datatype Crypto = Crypto(sha256: Bytes -> Digest, signedBy: (Cert, Cert) -> bool)

  datatype Verdict = Accepted | InvalidPin | NotVerified

  function DecodePin(pin: string): (r: Option<Bytes>)
    ensures r.Some? <==> |pin| == 64 && forall i | 0 <= i < |pin| :: Hex.DigitValue(pin[i]).Some?
    ensures r.Some? ==> |r.value| == 32 && Hex.EqualFold(pin, Hex.Encode(r.value))
  {
    Hex.DecodesIffDigits(pin);
    match Hex.Decode(pin)
    case Some(bytes) =>
      Hex.EqualFoldIsSameBytes(pin, bytes);
      if |bytes| == SHA256_SIZE then Some(bytes) else None
    case None => None
  }

  /** Every adjacent link of the chain is signed. */
  ghost predicate Linked(crypto: Crypto, chain: seq<Cert>) {
    forall i | 1 <= i < |chain| :: crypto.signedBy(chain[i - 1], chain[i])
  }

  /** `chain` is the longest prefix of `certs` in which every adjacent link is signed. */
  ghost predicate IsSignedChain(crypto: Crypto, certs: seq<Cert>, chain: seq<Cert>) {
    && chain <= certs
    && (certs != [] ==> chain != [])
    && Linked(crypto, chain)
    && forall longer: seq<Cert> | |longer| > |chain| && longer <= certs :: !Linked(crypto, longer)
  }

  ghost predicate PinMatches(crypto: Crypto, pin: string, cert: Cert) {
    DecodePin(pin) == Some(crypto.sha256(cert.raw))
  }

  /** Some active pin is the digest of some certificate of the chain. */
  ghost predicate SomePinMatches(crypto: Crypto, pins: seq<string>, chain: seq<Cert>) {
    exists i, j | 0 <= i < |chain| && 0 <= j < |pins| :: PinMatches(crypto, pins[j], chain[i])
  }

  /** The certificates of `certs` that vouch for the leaf, named by position: all links up to i are signed. */
  ghost predicate Vouches(crypto: Crypto, certs: seq<Cert>, i: nat) {
    i < |certs| && Linked(crypto, certs[..i + 1])
  }

  ghost predicate VouchedPin(crypto: Crypto, pins: seq<string>, certs: seq<Cert>) {
    exists i, j | 0 <= i < |certs| && 0 <= j < |pins| ::
      Vouches(crypto, certs, i) && PinMatches(crypto, pins[j], certs[i])
  }

  function ActivePins(custom: Option<string>, defaults: seq<string>): (r: seq<string>) {
    match custom case Some(pin) => [pin] case None => defaults
  }

  /** The policy a handshake applies, without reference to how the chain is searched. */
  ghost predicate Permits(crypto: Crypto, custom: Option<string>, defaults: seq<string>, certs: seq<Cert>) {
    custom == Some("") || VouchedPin(crypto, ActivePins(custom, defaults), certs)
  }

  /** The certificate at position i has signed the one before it, and so on down to the leaf. */
  ghost predicate SignsDown(crypto: Crypto, certs: seq<Cert>, i: nat) {
    i < |certs| && forall j | 0 <= j < i :: crypto.signedBy(certs[j], certs[j + 1])
  }

  lemma VouchesIsSignsDown(crypto: Crypto, certs: seq<Cert>, i: nat)
    ensures Vouches(crypto, certs, i) <==> SignsDown(crypto, certs, i)
  {
    if i < |certs| {
      var chain := certs[..i + 1];
      if Vouches(crypto, certs, i) {
        forall j | 0 <= j < i ensures crypto.signedBy(certs[j], certs[j + 1]) {
          assert crypto.signedBy(chain[j + 1 - 1], chain[j + 1]);
        }
      }
      if SignsDown(crypto, certs, i) {
        forall j | 1 <= j < |chain| ensures crypto.signedBy(chain[j - 1], chain[j]) {
          assert crypto.signedBy(certs[j - 1], certs[j - 1 + 1]);
        }
      }
    }
  }

  /** A pin in force: the custom one if there is one, and one of the list otherwise. */
  predicate InForce(pin: string, custom: Option<string>, defaults: seq<string>) {
    custom == Some(pin) || (custom == None && pin in defaults)
  }

  lemma PermittedByPin(crypto: Crypto, custom: Option<string>, defaults: seq<string>, certs: seq<Cert>)
    returns (i: nat, pin: string)
    requires VouchedPin(crypto, ActivePins(custom, defaults), certs)
    ensures SignsDown(crypto, certs, i) && InForce(pin, custom, defaults)
    ensures Hex.Decode(pin) == Some(crypto.sha256(certs[i].raw))
  {
    var pins := ActivePins(custom, defaults);
    var k, j :| 0 <= k < |certs| && 0 <= j < |pins|
      && Vouches(crypto, certs, k) && PinMatches(crypto, pins[j], certs[k]);
    i, pin := k, pins[j];
    VouchesIsSignsDown(crypto, certs, i);
  }

  lemma PinPermits(crypto: Crypto, custom: Option<string>, defaults: seq<string>, certs: seq<Cert>, i: nat, pin: string)
    requires SignsDown(crypto, certs, i) && InForce(pin, custom, defaults)
    requires Hex.Decode(pin) == Some(crypto.sha256(certs[i].raw))
    ensures VouchedPin(crypto, ActivePins(custom, defaults), certs)
  {
    var pins := ActivePins(custom, defaults);
    VouchesIsSignsDown(crypto, certs, i);
    assert pin in pins;
    var j :| 0 <= j < |pins| && pins[j] == pin;
    assert PinMatches(crypto, pins[j], certs[i]);
  }

  /** The policy spelled out: pinning is disabled, or a pin in force reads as the 32-byte digest of a presented
      certificate down from which every link to the leaf is signed. */
  lemma PolicySpelledOut(crypto: Crypto, custom: Option<string>, defaults: seq<string>, certs: seq<Cert>)
    ensures Permits(crypto, custom, defaults, certs) <==>
            || custom == Some("")
            || exists i: nat, pin: string ::
                 && SignsDown(crypto, certs, i) && InForce(pin, custom, defaults)
                 && Hex.Decode(pin) == Some(crypto.sha256(certs[i].raw))
  {
    if VouchedPin(crypto, ActivePins(custom, defaults), certs) {
      var i, pin := PermittedByPin(crypto, custom, defaults, certs);
    }
    if i: nat, pin: string :|
      && SignsDown(crypto, certs, i) && InForce(pin, custom, defaults)
      && Hex.Decode(pin) == Some(crypto.sha256(certs[i].raw))
    {
      PinPermits(crypto, custom, defaults, certs, i, pin);
    }
  }

  method SignedChain(crypto: Crypto, certs: seq<Cert>) returns (chain: seq<Cert>)
    ensures IsSignedChain(crypto, certs, chain)
  {
    var i := 1;
    while i < |certs|
      invariant 1 <= i
      invariant i <= |certs| || certs == []
      invariant certs != [] ==> Linked(crypto, certs[..i])
    {
      if !crypto.signedBy(certs[i - 1], certs[i]) {
        forall longer: seq<Cert> | |longer| > i && longer <= certs ensures !Linked(crypto, longer) {
          assert longer[i - 1] == certs[i - 1] && longer[i] == certs[i];
        }
        return certs[..i];
      }
      i := i + 1;
    }
    assert certs != [] ==> certs[..i] == certs;
    return certs;
  }

  /** The two nested loops of verifyPeer; an entry that is not a well-formed pin never matches. */
  method SearchChain(crypto: Crypto, chain: seq<Cert>, pins: seq<string>) returns (found: bool)
    ensures found <==> SomePinMatches(crypto, pins, chain)
  {
    for i := 0 to |chain|
      invariant forall k, j | 0 <= k < i && 0 <= j < |pins| :: !PinMatches(crypto, pins[j], chain[k])
    {
      var actual := crypto.sha256(chain[i].raw);
      for j := 0 to |pins|
        invariant forall k | 0 <= k < j :: !PinMatches(crypto, pins[k], chain[i])
      {
        var expected := DecodePin(pins[j]);
        if expected.None? {
          continue;
        }
        if expected.value == actual {
          assert PinMatches(crypto, pins[j], chain[i]);
          return true;
        }
      }
    }
    return false;
  }

  /** The searched chain holds exactly the certificates that vouch for the leaf. */
  lemma ChainIsVouched(crypto: Crypto, certs: seq<Cert>, chain: seq<Cert>, pins: seq<string>)
    requires IsSignedChain(crypto, certs, chain)
    ensures forall i: nat :: Vouches(crypto, certs, i) <==> i < |chain|
    ensures SomePinMatches(crypto, pins, chain) <==> VouchedPin(crypto, pins, certs)
  {
    forall i: nat ensures Vouches(crypto, certs, i) <==> i < |chain| {
      if i < |chain| {
        assert certs[..i + 1] == chain[..i + 1];
      } else if i < |certs| {
        assert certs[..i + 1] <= certs && |certs[..i + 1]| > |chain|;
      }
    }
    if SomePinMatches(crypto, pins, chain) {
      var i, j :| 0 <= i < |chain| && 0 <= j < |pins| && PinMatches(crypto, pins[j], chain[i]);
      assert chain[i] == certs[i] && Vouches(crypto, certs, i);
    }
    if VouchedPin(crypto, pins, certs) {
      var i, j :| 0 <= i < |certs| && 0 <= j < |pins|
        && Vouches(crypto, certs, i) && PinMatches(crypto, pins[j], certs[i]);
      assert chain[i] == certs[i];
    }
  }

  /** The package-level pin list and the functions that guard it. */
  class PinList {
    var defaultFingerprints: seq<string>

    constructor (defaults: seq<string>)
      ensures defaultFingerprints == defaults
    {
      defaultFingerprints := defaults;
    }

    method SetCustomFingerprint(fingerprints: seq<string>)
      modifies this
      ensures defaultFingerprints == fingerprints
    {
      defaultFingerprints := fingerprints;
    }

    method AddFingerprints(fingerprint: string)
      modifies this
      ensures defaultFingerprints == old(defaultFingerprints) + [fingerprint]
    {
      defaultFingerprints := defaultFingerprints + [fingerprint];
    }

    method GetFormattedFingerprints() returns (pins: seq<string>)
      ensures pins == defaultFingerprints
    {
      pins := defaultFingerprints;
    }

    /** One handshake: accepted exactly when the policy permits the presented chain. */
    method VerifyPeer(crypto: Crypto, certs: seq<Cert>, custom: Option<string>) returns (r: Verdict)
      ensures r == Accepted <==> Permits(crypto, custom, defaultFingerprints, certs)
      ensures r == InvalidPin <==>
              custom != Some("") && ((custom.Some? && DecodePin(custom.value).None?) || certs == [])
    {
      var pins := [];
      if custom.Some? {
        if custom.value == "" {
          return Accepted;
        }
        if DecodePin(custom.value).None? {
          return InvalidPin;
        }
        pins := pins + [custom.value];
      } else {
        pins := GetFormattedFingerprints();
      }
      if |certs| == 0 {
        return InvalidPin;
      }
      assert pins == ActivePins(custom, defaultFingerprints);
      var chain := SignedChain(crypto, certs);
      ChainIsVouched(crypto, certs, chain, pins);
      var found := SearchChain(crypto, chain, pins);
      return if found then Accepted else NotVerified;
    }
  }

  lemma SignedChainIsUnique(crypto: Crypto, certs: seq<Cert>, a: seq<Cert>, b: seq<Cert>)
    requires IsSignedChain(crypto, certs, a) && IsSignedChain(crypto, certs, b)
    ensures a == b
  {
    assert |a| == |b|;
    assert a == certs[..|a|] && b == certs[..|b|];
  }

  /** More pins, or more certificates at the root end, never turn an accepted handshake away. */
  lemma AcceptanceIsMonotone(crypto: Crypto, pins: seq<string>, certs: seq<Cert>,
                             morePins: seq<string>, moreCerts: seq<Cert>)
    requires VouchedPin(crypto, pins, certs)
    requires forall pin | pin in pins :: pin in morePins
    requires certs <= moreCerts
    ensures VouchedPin(crypto, morePins, moreCerts)
  {
    var i, j :| 0 <= i < |certs| && 0 <= j < |pins|
      && Vouches(crypto, certs, i) && PinMatches(crypto, pins[j], certs[i]);
    assert pins[j] in morePins;
    var k :| 0 <= k < |morePins| && morePins[k] == pins[j];
    assert moreCerts[..i + 1] == certs[..i + 1];
    assert Vouches(crypto, moreCerts, i) && PinMatches(crypto, morePins[k], moreCerts[i]);
  }

  /** After a broken link the rest of the presented chain is irrelevant: replacing it by anything changes nothing. */
  lemma BrokenLinkHidesTheRest(crypto: Crypto, pins: seq<string>, signed: seq<Cert>, tail: seq<Cert>)
    requires signed != [] && tail != []
    requires !crypto.signedBy(signed[|signed| - 1], tail[0])
    ensures VouchedPin(crypto, pins, signed + tail) <==> VouchedPin(crypto, pins, signed)
  {
    var certs := signed + tail;
    forall i: nat ensures Vouches(crypto, certs, i) <==> Vouches(crypto, signed, i) {
      if i < |signed| {
        assert certs[..i + 1] == signed[..i + 1];
      } else if i < |certs| {
        var n := |signed|;
        assert certs[..i + 1][n - 1] == signed[n - 1] && certs[..i + 1][n] == tail[0];
      }
    }
    if VouchedPin(crypto, pins, signed) {
      AcceptanceIsMonotone(crypto, pins, signed, pins, certs);
    }
    if VouchedPin(crypto, pins, certs) {
      var i, j :| 0 <= i < |certs| && 0 <= j < |pins|
        && Vouches(crypto, certs, i) && PinMatches(crypto, pins[j], certs[i]);
      assert Vouches(crypto, signed, i) && certs[i] == signed[i];
    }
  }

  /** The certificate itself is pinned. */
  ghost predicate Pinned(crypto: Crypto, pins: seq<string>, cert: Cert) {
    exists j | 0 <= j < |pins| :: PinMatches(crypto, pins[j], cert)
  }

  /** Whatever a pinned certificate has signed is pinned too. */
  ghost predicate PinsNameOnlyLeaves(crypto: Crypto, pins: seq<string>) {
    forall c: Cert, p: Cert :: Pinned(crypto, pins, p) && crypto.signedBy(c, p) ==> Pinned(crypto, pins, c)
  }

  lemma PinnedLeafIsAccepted(crypto: Crypto, pins: seq<string>, certs: seq<Cert>)
    requires certs != [] && Pinned(crypto, pins, certs[0])
    ensures VouchedPin(crypto, pins, certs)
  {
    var j :| 0 <= j < |pins| && PinMatches(crypto, pins[j], certs[0]);
    assert Vouches(crypto, certs, 0);
  }

  /** Pinnedness runs down the signed links. */
  lemma {:induction false} PinnedDownToLeaf(crypto: Crypto, pins: seq<string>, certs: seq<Cert>, i: nat)
    requires PinsNameOnlyLeaves(crypto, pins)
    requires Vouches(crypto, certs, i) && Pinned(crypto, pins, certs[i])
    ensures Pinned(crypto, pins, certs[0])
  {
    if i > 0 {
      var chain := certs[..i + 1];
      assert crypto.signedBy(chain[i - 1], chain[i]);
      assert chain[..i] == certs[..i];
      PinnedDownToLeaf(crypto, pins, certs, i - 1);
    }
  }

  lemma SigningPairIsAccepted(crypto: Crypto, pins: seq<string>, c: Cert, p: Cert)
    requires Pinned(crypto, pins, p) && crypto.signedBy(c, p)
    ensures VouchedPin(crypto, pins, [c, p])
  {
    var j :| 0 <= j < |pins| && PinMatches(crypto, pins[j], p);
    assert [c, p][..2] == [c, p];
    assert Vouches(crypto, [c, p], 1) && PinMatches(crypto, pins[j], [c, p][1]);
  }

  /** The README reads a pin as naming the leaf; the code also accepts a pinned issuer. The two readings give one
      verdict on every chain exactly when no pinned certificate has signed an unpinned one, which depends on the pins
      and on who signed whom, not on any chain. */
  lemma LeafReadingAgreesIff(crypto: Crypto, pins: seq<string>)
    ensures (forall certs: seq<Cert> | certs != [] ::
               VouchedPin(crypto, pins, certs) <==> Pinned(crypto, pins, certs[0])) <==>
            PinsNameOnlyLeaves(crypto, pins)
  {
    if PinsNameOnlyLeaves(crypto, pins) {
      forall certs: seq<Cert> | certs != []
        ensures VouchedPin(crypto, pins, certs) <==> Pinned(crypto, pins, certs[0])
      {
        if Pinned(crypto, pins, certs[0]) {
          PinnedLeafIsAccepted(crypto, pins, certs);
        }
        if VouchedPin(crypto, pins, certs) {
          var i, j :| 0 <= i < |certs| && 0 <= j < |pins|
            && Vouches(crypto, certs, i) && PinMatches(crypto, pins[j], certs[i]);
          PinnedDownToLeaf(crypto, pins, certs, i);
        }
      }
    } else {
      var c, p :| Pinned(crypto, pins, p) && crypto.signedBy(c, p) && !Pinned(crypto, pins, c);
      SigningPairIsAccepted(crypto, pins, c, p);
      assert VouchedPin(crypto, pins, [c, p]) && !Pinned(crypto, pins, [c, p][0]);
    }
  }

  /** A chain on which the two readings differ: only the issuer is pinned. */
  lemma IssuerPinIsAccepted(pin: string, digest: Digest)
    requires DecodePin(pin) == Some(digest)
    ensures exists crypto: Crypto, leaf: Cert, issuer: Cert ::
              VouchedPin(crypto, [pin], [leaf, issuer]) && !VouchedPin(crypto, [pin], [leaf])
  {
    var other: Digest := if digest[0] == 0 then digest[0 := 1] else digest[0 := 0];
    var crypto := Crypto((raw: Bytes) => if raw == [1] then digest else other, (c: Cert, p: Cert) => true);
    var leaf, issuer := Cert([0]), Cert([1]);
    assert Vouches(crypto, [leaf, issuer], 1) && PinMatches(crypto, [pin][0], [leaf, issuer][1]);
    assert !PinMatches(crypto, pin, leaf);
    assert VouchedPin(crypto, [pin], [leaf, issuer]) && !VouchedPin(crypto, [pin], [leaf]);
  }
}
