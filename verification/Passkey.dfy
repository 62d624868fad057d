/** The client instance ID of passkey.go: four version-4 UUID texts, built in place and hashed.
    Randomness and SHA-512 are parameters. */
module Passkey {
  import opened Basics
  import Hex

  const ENTROPY_SIZE := 16
  const TEXT_SIZE := 36

  /** The entropy with the version and variant bits of sections 4.1 and 4.2 of RFC 9562 set. */
  function Masked(e: Bytes): (m: Bytes)
    requires |e| == ENTROPY_SIZE
    ensures |m| == ENTROPY_SIZE
  {
    e[6 := (e[6] & 15) | 64][8 := (e[8] & 63) | 128]
  }

  /** The text form of section 4 of RFC 9562. */
  function UuidText(m: Bytes): (text: string)
    requires |m| == ENTROPY_SIZE
    ensures |text| == TEXT_SIZE
  {
    Hex.Encode(m[0..4]) + "-" + Hex.Encode(m[4..6]) + "-" + Hex.Encode(m[6..8]) + "-" +
    Hex.Encode(m[8..10]) + "-" + Hex.Encode(m[10..16])
  }

  predicate IsDash(i: int) { i == 8 || i == 13 || i == 18 || i == 23 }

  /** Canonical version-4 text: dashes in place, lower-case digits elsewhere, version 4, variant 10. */
  predicate IsCanonicalV4(text: string) {
    && |text| == TEXT_SIZE
    && (forall i | 0 <= i < TEXT_SIZE :: if IsDash(i) then text[i] == '-' else Hex.IsLowerHex(text[i]))
    && text[14] == '4'
    && (text[19] == '8' || text[19] == '9' || text[19] == 'a' || text[19] == 'b')
  }

  /** What a reader of the text recovers. */
  function ParseUuid(text: string): (r: Option<Bytes>)
    requires |text| == TEXT_SIZE
  {
    Hex.Decode(text[0..8] + text[9..13] + text[14..18] + text[19..23] + text[24..36])
  }

  /** What is hashed when the random source delivers `rounds`: their texts, in order. */
  function Preimage(rounds: seq<Bytes>): (r: string)
    requires forall e | e in rounds :: |e| == ENTROPY_SIZE
    ensures |r| == TEXT_SIZE * |rounds|
  {
    if rounds == [] then "" else Preimage(rounds[..|rounds| - 1]) + UuidText(Masked(rounds[|rounds| - 1]))
  }

  /** Stateful hasher: what has been written so far. */
  class Hasher {
    var written: string

    constructor ()
      ensures written == ""
    {
      written := "";
    }

    method Write(text: string)
      modifies this
      ensures written == old(written) + text
    {
      written := written + text;
    }
  }

  method PutPair(dst: array<char>, at: nat, out: nat, digits: string)
    requires at <= out && out + 2 <= dst.Length && |digits| == 2
    modifies dst
    ensures dst[at..out + 2] == old(dst[at..out]) + digits
    ensures forall i | 0 <= i < dst.Length && !(out <= i < out + 2) :: dst[i] == old(dst[i])
  {
    dst[out] := digits[0];
    dst[out + 1] := digits[1];
    assert dst[at..out] == old(dst[at..out]);
  }

  lemma EncodeStep(source: Bytes, from: nat, i: nat)
    requires from <= i < |source|
    ensures Hex.Encode(source[from..i + 1]) ==
            Hex.Encode(source[from..i]) + Hex.Encode([source[i]])
  {
    Hex.EncodeConcat(source[from..i], [source[i]]);
    assert source[from..i + 1] == source[from..i] + [source[i]];
  }

  /** hex.Encode: digits of src[from..to] written at dst[at..]. */
  method EncodeInto(dst: array<char>, at: nat, src: array<bv8>, from: nat, to: nat)
    requires from <= to <= src.Length && at + 2 * (to - from) <= dst.Length
    requires dst as object != src as object
    modifies dst
    ensures dst[at..at + 2 * (to - from)] == Hex.Encode(src[from..to])
    ensures forall i | 0 <= i < dst.Length && !(at <= i < at + 2 * (to - from)) :: dst[i] == old(dst[i])
  {
    ghost var source := src[..];
    var out := at;
    for i := from to to
      invariant out == at + 2 * (i - from)
      invariant src[..] == source
      invariant dst[at..out] == Hex.Encode(source[from..i])
      invariant forall j | 0 <= j < dst.Length && !(at <= j < out) :: dst[j] == old(dst[j])
    {
      EncodeStep(source, from, i);
      PutPair(dst, at, out, Hex.Encode([src[i]]));
      out := out + 2;
    }
    assert src[from..to] == source[from..to];
  }

  method MaskInPlace(entropy: array<bv8>)
    requires entropy.Length == ENTROPY_SIZE
    modifies entropy
    ensures entropy[..] == Masked(old(entropy[..]))
  {
    entropy[6] := (entropy[6] & 15) | 64;
    entropy[8] := (entropy[8] & 63) | 128;
  }

  lemma CutAtDashes(t: string)
    requires |t| == TEXT_SIZE && t[8] == t[13] == t[18] == t[23] == '-'
    ensures t == t[0..8] + "-" + t[9..13] + "-" + t[14..18] + "-" + t[19..23] + "-" + t[24..36]
  {
  }

  /** A buffer that holds each field at its offset and the dashes between them is the text. */
  lemma Assemble(t: string, m: Bytes)
    requires |t| == TEXT_SIZE && |m| == ENTROPY_SIZE
    requires t[0..8] == Hex.Encode(m[0..4]) && t[9..13] == Hex.Encode(m[4..6]) && t[14..18] == Hex.Encode(m[6..8])
    requires t[19..23] == Hex.Encode(m[8..10]) && t[24..36] == Hex.Encode(m[10..16])
    requires forall i | IsDash(i) :: t[i] == '-'
    ensures t == UuidText(m)
  {
    assert IsDash(8) && IsDash(13) && IsDash(18) && IsDash(23);
    CutAtDashes(t);
  }

  method PrintFields(ascii: array<char>, entropy: array<bv8>)
    requires ascii.Length == TEXT_SIZE && entropy.Length == ENTROPY_SIZE
    modifies ascii
    ensures ascii[..] == UuidText(entropy[..])
  {
    ghost var m := entropy[..];
    EncodeInto(ascii, 0, entropy, 0, 4);
    EncodeInto(ascii, 9, entropy, 4, 6);
    EncodeInto(ascii, 14, entropy, 6, 8);
    EncodeInto(ascii, 19, entropy, 8, 10);
    EncodeInto(ascii, 24, entropy, 10, 16);
    ascii[8], ascii[13], ascii[18], ascii[23] := '-', '-', '-', '-';
    Assemble(ascii[..], m);
  }

  /** Lines 23-30 of passkey.go: the masked entropy printed at its offsets in the buffer. */
  method PrintUuid(ascii: array<char>, entropy: array<bv8>)
    requires ascii.Length == TEXT_SIZE && entropy.Length == ENTROPY_SIZE
    modifies ascii, entropy
    ensures entropy[..] == Masked(old(entropy[..]))
    ensures ascii[..] == UuidText(Masked(old(entropy[..])))
  {
    MaskInPlace(entropy);
    PrintFields(ascii, entropy);
  }

  method ReadFull(draw: Bytes, entropy: array<bv8>)
    requires |draw| == entropy.Length
    modifies entropy
    ensures entropy[..] == draw
  {
    forall i | 0 <= i < entropy.Length { entropy[i] := draw[i]; }
  }

  /** One round: mask, print, hash. */
  method HashRound(hasher: Hasher, ascii: array<char>, entropy: array<bv8>)
    requires ascii.Length == TEXT_SIZE && entropy.Length == ENTROPY_SIZE
    modifies hasher, ascii, entropy
    ensures hasher.written == old(hasher.written) + UuidText(Masked(old(entropy[..])))
  {
    PrintUuid(ascii, entropy);
    hasher.Write(ascii[..]);
  }

  lemma PreimageGrows(rounds: seq<Bytes>, n: nat)
    requires n < |rounds| && forall e | e in rounds :: |e| == ENTROPY_SIZE
    ensures Preimage(rounds[..n + 1]) == Preimage(rounds[..n]) + UuidText(Masked(rounds[n]))
  {
    assert rounds[..n + 1][..n] == rounds[..n];
  }

  /** `draws` is what the random source delivers; fewer than four means it failed. */
  method CreateClientInstanceID(draws: seq<Bytes>, sha512: string -> Bytes) returns (id: Option<string>)
    requires forall e | e in draws :: |e| == ENTROPY_SIZE
    ensures id.Some? <==> |draws| >= 4
    ensures id.Some? ==> id.value == Hex.Encode(sha512(Preimage(draws[..4])))
  {
    var entropy := new bv8[16];
    var ascii := new char[36];
    var hasher := new Hasher();
    for count := 0 to 4
      invariant count <= |draws|
      invariant hasher.written == Preimage(draws[..count])
      invariant fresh(hasher) && fresh(entropy) && fresh(ascii)
    {
      if count >= |draws| {
        return None;
      }
      ReadFull(draws[count], entropy);
      HashRound(hasher, ascii, entropy);
      PreimageGrows(draws, count);
    }
    return Some(Hex.Encode(sha512(hasher.written)));
  }

  lemma MaskedNibbles(b: bv8)
    ensures Hex.Digit(((b & 15) | 64) >> 4) == '4'
    ensures var c := Hex.Digit(((b & 63) | 128) >> 4); c == '8' || c == '9' || c == 'a' || c == 'b'
  {
    assert ((b & 15) | 64) >> 4 == 4;
    var v := ((b & 63) | 128) >> 4;
    assert v == 8 || v == 9 || v == 10 || v == 11;
  }

  lemma FirstChar(bytes: Bytes)
    requires bytes != []
    ensures Hex.Encode(bytes)[0] == Hex.Digit(bytes[0] >> 4)
  {
  }

  lemma AllLowerHex(bytes: Bytes)
    ensures forall i | 0 <= i < 2 * |bytes| :: Hex.IsLowerHex(Hex.Encode(bytes)[i])
  {
    forall i | 0 <= i < 2 * |bytes| ensures Hex.IsLowerHex(Hex.Encode(bytes)[i]) {
      Hex.EncodedDigits(bytes, i);
    }
  }

  /** Every buffer that is hashed is canonical version-4 text, whatever the entropy. */
  lemma HashedTextIsCanonical(e: Bytes)
    requires |e| == ENTROPY_SIZE
    ensures IsCanonicalV4(UuidText(Masked(e)))
  {
    var m := Masked(e);
    AllLowerHex(m[0..4]);
    AllLowerHex(m[4..6]);
    AllLowerHex(m[6..8]);
    AllLowerHex(m[8..10]);
    AllLowerHex(m[10..16]);
    FirstChar(m[6..8]);
    FirstChar(m[8..10]);
    MaskedNibbles(e[6]);
    MaskedNibbles(e[8]);
  }

  /** Five fields with dashes between them, cut apart again. */
  lemma FieldsOf(a: string, b: string, c: string, d: string, e: string)
    requires |a| == 8 && |b| == |c| == |d| == 4 && |e| == 12
    ensures var t := a + "-" + b + "-" + c + "-" + d + "-" + e;
            && |t| == 36 && t[0..8] == a && t[9..13] == b && t[14..18] == c && t[19..23] == d && t[24..36] == e
            && t[8] == '-' && t[13] == '-' && t[18] == '-' && t[23] == '-'
  {
  }

  /** Which bytes stand where in the text, and where the dashes are. */
  lemma TextFields(m: Bytes)
    requires |m| == 16
    ensures var t := UuidText(m);
            && t[0..8] == Hex.Encode(m[0..4]) && t[9..13] == Hex.Encode(m[4..6]) && t[14..18] == Hex.Encode(m[6..8])
            && t[19..23] == Hex.Encode(m[8..10]) && t[24..36] == Hex.Encode(m[10..16])
            && t[8] == '-' && t[13] == '-' && t[18] == '-' && t[23] == '-'
  {
    FieldsOf(Hex.Encode(m[0..4]), Hex.Encode(m[4..6]), Hex.Encode(m[6..8]), Hex.Encode(m[8..10]),
             Hex.Encode(m[10..16]));
  }

  lemma EncodeParts(m: Bytes)
    requires |m| == ENTROPY_SIZE
    ensures Hex.Encode(m[0..4]) + Hex.Encode(m[4..6]) + Hex.Encode(m[6..8]) + Hex.Encode(m[8..10]) +
            Hex.Encode(m[10..16]) == Hex.Encode(m)
  {
    Hex.EncodeConcat(m[0..4], m[4..6]);
    assert m[0..4] + m[4..6] == m[0..6];
    Hex.EncodeConcat(m[0..6], m[6..8]);
    assert m[0..6] + m[6..8] == m[0..8];
    Hex.EncodeConcat(m[0..8], m[8..10]);
    assert m[0..8] + m[8..10] == m[0..10];
    Hex.EncodeConcat(m[0..10], m[10..16]);
    assert m[0..10] + m[10..16] == m;
  }

  lemma ParseUuidText(m: Bytes)
    requires |m| == ENTROPY_SIZE
    ensures ParseUuid(UuidText(m)) == Some(m)
  {
    TextFields(m);
    EncodeParts(m);
    Hex.DecodeEncode(m);
  }

  /** Masking leaves fourteen bytes in their places and sets the high bits of the other two: version 4 and variant 10.
      */
  lemma MaskedBytes(e: Bytes)
    requires |e| == 16
    ensures |Masked(e)| == 16 && forall i | 0 <= i < 16 && i != 6 && i != 8 :: Masked(e)[i] == e[i]
    ensures Masked(e)[6] >> 4 == 4 && Masked(e)[6] & 15 == e[6] & 15
    ensures Masked(e)[8] >> 6 == 2 && Masked(e)[8] & 63 == e[8] & 63
  {
  }

  lemma MaskedBits(a: bv8, b: bv8)
    ensures ((a & 15) | 64 == (b & 15) | 64) <==> (a & 15 == b & 15)
    ensures ((a & 63) | 128 == (b & 63) | 128) <==> (a & 63 == b & 63)
  {
  }

  lemma UpdatedTwice(e: Bytes, f: Bytes, a: bv8, b: bv8, c: bv8, d: bv8)
    requires |e| == |f| == ENTROPY_SIZE
    ensures e[6 := a][8 := b] == f[6 := c][8 := d] <==>
            (forall i | 0 <= i < ENTROPY_SIZE && i != 6 && i != 8 :: e[i] == f[i]) && a == c && b == d
  {
    var m, n := e[6 := a][8 := b], f[6 := c][8 := d];
    if m == n {
      assert m[6] == a && n[6] == c && m[8] == b && n[8] == d;
      forall i | 0 <= i < ENTROPY_SIZE && i != 6 && i != 8 ensures e[i] == f[i] {
        assert m[i] == e[i] && n[i] == f[i];
      }
    }
  }

  /** Masking forgets only the six bits it overwrites. */
  lemma MaskKeepsTheRest(e: Bytes, f: Bytes)
    requires |e| == |f| == ENTROPY_SIZE
    ensures Masked(e) == Masked(f) <==>
            && (forall i | 0 <= i < ENTROPY_SIZE && i != 6 && i != 8 :: e[i] == f[i])
            && e[6] & 15 == f[6] & 15 && e[8] & 63 == f[8] & 63
  {
    MaskedBits(e[6], f[6]);
    MaskedBits(e[8], f[8]);
    var a, b := (e[6] & 15) | 64, (e[8] & 63) | 128;
    var c, d := (f[6] & 15) | 64, (f[8] & 63) | 128;
    assert Masked(e) == e[6 := a][8 := b] && Masked(f) == f[6 := c][8 := d];
    UpdatedTwice(e, f, a, b, c, d);
  }

  /** The k-th chunk of what is hashed. */
  function Chunk(text: string, k: nat): (r: string)
    requires TEXT_SIZE * (k + 1) <= |text|
  {
    text[TEXT_SIZE * k..TEXT_SIZE * k + TEXT_SIZE]
  }

  lemma ChunkOfAppend(front: string, text: string, n: nat, k: nat)
    requires |front| == TEXT_SIZE * n && |text| == TEXT_SIZE && k <= n
    ensures Chunk(front + text, k) == if k < n then Chunk(front, k) else text
  {
    if k < n {
      assert TEXT_SIZE * (k + 1) <= TEXT_SIZE * n;
    }
  }

  lemma {:induction false} ChunkOfPreimage(rounds: seq<Bytes>, k: nat)
    requires k < |rounds| && forall e | e in rounds :: |e| == ENTROPY_SIZE
    ensures Chunk(Preimage(rounds), k) == UuidText(Masked(rounds[k]))
  {
    var n := |rounds| - 1;
    ChunkOfAppend(Preimage(rounds[..n]), UuidText(Masked(rounds[n])), n, k);
    if k < n {
      ChunkOfPreimage(rounds[..n], k);
    }
  }

  /** Each 36-character chunk of what is hashed gives back the masked entropy of its round. */
  lemma PreimageRecoversRound(rounds: seq<Bytes>, k: nat)
    requires k < |rounds| && forall e | e in rounds :: |e| == ENTROPY_SIZE
    ensures ParseUuid(Chunk(Preimage(rounds), k)) == Some(Masked(rounds[k]))
  {
    ChunkOfPreimage(rounds, k);
    ParseUuidText(Masked(rounds[k]));
  }

  /** The 144 characters hashed determine all four masked entropies. */
  lemma PreimageInjective(a: seq<Bytes>, b: seq<Bytes>)
    requires |a| == |b| == 4
    requires forall e | e in a + b :: |e| == ENTROPY_SIZE
    requires Preimage(a) == Preimage(b)
    ensures |Preimage(a)| == 144
    ensures forall k | 0 <= k < 4 :: Masked(a[k]) == Masked(b[k])
  {
    forall k | 0 <= k < 4 ensures Masked(a[k]) == Masked(b[k]) {
      PreimageRecoversRound(a, k);
      PreimageRecoversRound(b, k);
    }
  }
}
