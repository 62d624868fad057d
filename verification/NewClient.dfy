/** How newClient (client.go) turns its fingerprint and certificate arguments into the pin that every
    later handshake uses. */
module NewClient {
  import opened Basics
  import opened Certificate
  import Hex

  datatype Error =
    | InvalidCertificatePin
    | CannotReadCertificate
    | CertificateTooLarge
    | ExpectedCertificate
    | InvalidCertificate
    | Disagreement

  datatype Result<+T> = Success(value: T) | Failure(error: Error)

  /** What reading, PEM-decoding and parsing the certificate argument gave. */
  datatype CertInput =
    | NoCert
    | Unreadable
    | TooLarge
    | WrongPemType
    | Unparsable
    | Parsed(cert: Cert)

  function CertProblem(input: CertInput): (r: Option<Error>) {
    match input
    case Unreadable => Some(CannotReadCertificate)
    case TooLarge => Some(CertificateTooLarge)
    case WrongPemType => Some(ExpectedCertificate)
    case Unparsable => Some(InvalidCertificate)
    case _ => None
  }

  function CertPin(crypto: Crypto, cert: Cert): (r: string) {
    Hex.Encode(crypto.sha256(cert.raw))
  }

  /** Some certificate that vouches for the leaf is the one with this digest. */
  ghost predicate VouchedDigest(crypto: Crypto, digest: Digest, chain: seq<Cert>) {
    exists i | 0 <= i < |chain| :: Vouches(crypto, chain, i) && crypto.sha256(chain[i].raw) == digest
  }

  /** The five rows of the pin table: the chains that the inputs ask for. In the fourth row the chain must hold the
      given certificate, which is what the fingerprint describes as well. */
  ghost predicate RowPermits(crypto: Crypto, custom: Option<string>, input: CertInput,
                             defaults: seq<string>, chain: seq<Cert>)
  {
    match (custom, input)
    case (None, Parsed(cert)) => VouchedDigest(crypto, crypto.sha256(cert.raw), chain)
    case (None, _) => VouchedPin(crypto, defaults, chain)
    case (Some(pin), Parsed(cert)) => pin == "" || VouchedDigest(crypto, crypto.sha256(cert.raw), chain)
    case (Some(pin), _) =>
      pin == "" || (DecodePin(pin).Some? && VouchedDigest(crypto, DecodePin(pin).value, chain))
  }

  /** The fingerprint and the certificate describe one certificate, or pinning is disabled. */
  ghost predicate Agree(crypto: Crypto, pin: string, cert: Cert) {
    pin == "" || DecodePin(pin) == Some(crypto.sha256(cert.raw))
  }

  /** The inputs that newClient accepts. */
  ghost predicate Admissible(crypto: Crypto, custom: Option<string>, input: CertInput) {
    && (custom.Some? && custom.value != "" ==> DecodePin(custom.value).Some?)
    && CertProblem(input) == None
    && (custom.Some? && input.Parsed? ==> Agree(crypto, custom.value, input.cert))
  }

  /** What ResolvePin stores when it succeeds. */
  function Resolved(crypto: Crypto, custom: Option<string>, input: CertInput): (r: Option<string>) {
    if custom.None? && input.Parsed? then Some(CertPin(crypto, input.cert)) else custom
  }

  method ResolvePin(crypto: Crypto, custom: Option<string>, input: CertInput) returns (r: Result<Option<string>>)
    ensures r.Success? <==> Admissible(crypto, custom, input)
    ensures r.Success? ==> r.value == Resolved(crypto, custom, input)
    ensures r.Success? && input.Parsed? && custom.None? ==> r.value == Some(Hex.Encode(crypto.sha256(input.cert.raw)))
    ensures r.Success? && (custom.Some? || input.NoCert?) ==> r.value == custom
    ensures r == Failure(InvalidCertificatePin) <==>
            custom.Some? && custom.value != "" && DecodePin(custom.value).None?
    ensures r == Failure(CannotReadCertificate) <==> r != Failure(InvalidCertificatePin) && input == Unreadable
    ensures r == Failure(CertificateTooLarge) <==> r != Failure(InvalidCertificatePin) && input == TooLarge
    ensures r == Failure(ExpectedCertificate) <==> r != Failure(InvalidCertificatePin) && input == WrongPemType
    ensures r == Failure(InvalidCertificate) <==> r != Failure(InvalidCertificatePin) && input == Unparsable
    ensures r == Failure(Disagreement) <==>
            && r != Failure(InvalidCertificatePin) && input.Parsed? && custom.Some? && custom.value != ""
            && Hex.Decode(custom.value) != Some(crypto.sha256(input.cert.raw))
  {
    var customFingerprint := custom;
    if customFingerprint.Some? {
      var value := customFingerprint.value;
      if value != "" {
        var pin := Hex.Decode(value);
        if pin.None? || |pin.value| != 32 {
          return Failure(InvalidCertificatePin);
        }
      }
    }
    if input != NoCert {
      if input.Unreadable? {
        return Failure(CannotReadCertificate);
      }
      if input.TooLarge? {
        return Failure(CertificateTooLarge);
      }
      if input.WrongPemType? {
        return Failure(ExpectedCertificate);
      }
      if input.Unparsable? {
        return Failure(InvalidCertificate);
      }
      var sum := crypto.sha256(input.cert.raw);
      var certPin := Hex.Encode(sum);
      if customFingerprint.Some? && customFingerprint.value != "" {
        Hex.EqualFoldIsSameBytes(customFingerprint.value, sum);
      }
      if customFingerprint.None? {
        customFingerprint := Some(certPin);
      } else if customFingerprint.value != "" && !Hex.EqualFold(customFingerprint.value, certPin) {
        return Failure(Disagreement);
      }
    }
    return Success(customFingerprint);
  }

  /** One well-formed pin accepts exactly the chains that hold its certificate. */
  lemma OnePinIsOneDigest(crypto: Crypto, pin: string, digest: Digest, chain: seq<Cert>)
    requires DecodePin(pin) == Some(digest)
    ensures VouchedPin(crypto, [pin], chain) <==> VouchedDigest(crypto, digest, chain)
  {
    if VouchedPin(crypto, [pin], chain) {
      var i, j :| 0 <= i < |chain| && 0 <= j < |[pin]|
        && Vouches(crypto, chain, i) && PinMatches(crypto, [pin][j], chain[i]);
    }
    if VouchedDigest(crypto, digest, chain) {
      var i :| 0 <= i < |chain| && Vouches(crypto, chain, i) && crypto.sha256(chain[i].raw) == digest;
      assert PinMatches(crypto, [pin][0], chain[i]);
    }
  }

  lemma CertPinDecodes(crypto: Crypto, cert: Cert)
    ensures DecodePin(CertPin(crypto, cert)) == Some(crypto.sha256(cert.raw)) && CertPin(crypto, cert) != ""
  {
    Hex.DecodeEncode(crypto.sha256(cert.raw));
  }

  /** The stored pin makes every handshake follow the row of the table that the inputs select. */
  lemma ConstructionAgreesWithHandshake(crypto: Crypto, custom: Option<string>, input: CertInput,
                                        defaults: seq<string>, chain: seq<Cert>)
    requires Admissible(crypto, custom, input)
    ensures Permits(crypto, Resolved(crypto, custom, input), defaults, chain) <==>
            RowPermits(crypto, custom, input, defaults, chain)
  {
    if custom.None? && input.Parsed? {
      CertPinDecodes(crypto, input.cert);
      OnePinIsOneDigest(crypto, CertPin(crypto, input.cert), crypto.sha256(input.cert.raw), chain);
    } else if custom.Some? && custom.value != "" {
      OnePinIsOneDigest(crypto, custom.value, DecodePin(custom.value).value, chain);
    }
  }

  /** A well-formed fingerprint and a certificate are accepted together exactly when a handshake that
      presents that certificate alone would be, so the textual comparison made once and the byte
      comparison made at each handshake are the same test. */
  lemma PairAcceptedIffHandshakeAccepts(crypto: Crypto, pin: string, cert: Cert, defaults: seq<string>)
    ensures Agree(crypto, pin, cert) <==> Permits(crypto, Some(pin), defaults, [cert])
    ensures pin != "" && DecodePin(pin).Some? ==>
            (Hex.EqualFold(pin, CertPin(crypto, cert)) <==> Permits(crypto, Some(pin), defaults, [cert]))
  {
    assert Vouches(crypto, [cert], 0);
    if pin != "" {
      if PinMatches(crypto, pin, cert) {
        assert PinMatches(crypto, [pin][0], [cert][0]);
      }
      if DecodePin(pin).Some? {
        Hex.EqualFoldIsSameBytes(pin, crypto.sha256(cert.raw));
      }
    }
  }
}
