/** Base 16 text as Go's encoding/hex prints and reads it (section 8 of RFC 4648, lower case on output,
    either case on input), and the case-insensitive comparison used on it. */
module Hex {
  import opened Basics

  /** The value of one hexadecimal digit of either case; None for every other character. */
  function DigitValue(c: char): (r: Option<bv8>)
    ensures r.Some? ==> r.value < 16
  {
    if c == '0' then Some(0) else if c == '1' then Some(1) else if c == '2' then Some(2)
    else if c == '3' then Some(3) else if c == '4' then Some(4) else if c == '5' then Some(5)
    else if c == '6' then Some(6) else if c == '7' then Some(7) else if c == '8' then Some(8)
    else if c == '9' then Some(9)
    else if c == 'a' || c == 'A' then Some(10) else if c == 'b' || c == 'B' then Some(11)
    else if c == 'c' || c == 'C' then Some(12) else if c == 'd' || c == 'D' then Some(13)
    else if c == 'e' || c == 'E' then Some(14) else if c == 'f' || c == 'F' then Some(15)
    else None
  }

  /** What the digits are worth. */
  lemma DigitsAreWorth(c: char)
    ensures DigitValue(c).Some? <==> '0' <= c <= '9' || 'a' <= c <= 'f' || 'A' <= c <= 'F'
    ensures '0' <= c <= '9' ==> DigitValue(c).value as int == c as int - '0' as int
    ensures 'a' <= c <= 'f' ==> DigitValue(c).value as int == c as int - 'a' as int + 10
    ensures 'A' <= c <= 'F' ==> DigitValue(c).value as int == c as int - 'A' as int + 10
  {
  }

  /** ASCII lower-casing, which is what Unicode simple folding comes to on hexadecimal digits. */
  function Lower(c: char): (r: char) {
    if 'A' <= c <= 'Z' then (c as int + 32) as char else c
  }

  function Digit(d: bv8): (c: char)
    requires d < 16
    ensures DigitValue(c) == Some(d)
    ensures Lower(c) == c
  {
    if d == 0 then '0' else if d == 1 then '1' else if d == 2 then '2' else if d == 3 then '3'
    else if d == 4 then '4' else if d == 5 then '5' else if d == 6 then '6' else if d == 7 then '7'
    else if d == 8 then '8' else if d == 9 then '9' else if d == 10 then 'a' else if d == 11 then 'b'
    else if d == 12 then 'c' else if d == 13 then 'd' else if d == 14 then 'e' else 'f'
  }

  function Encode(bytes: Bytes): (s: string)
    ensures |s| == 2 * |bytes|
  {
    if bytes == [] then "" else [Digit(bytes[0] >> 4), Digit(bytes[0] & 15)] + Encode(bytes[1..])
  }

  /** None for a character that is not a hexadecimal digit and for an odd number of characters. */
  function Decode(s: string): (r: Option<Bytes>)
    ensures r.Some? ==> |s| == 2 * |r.value|
  {
    if s == [] then Some([])
    else if |s| == 1 then None
    else
      match (DigitValue(s[0]), DigitValue(s[1]), Decode(s[2..]))
      case (Some(hi), Some(lo), Some(rest)) => Some([(hi << 4) | lo] + rest)
      case _ => None
  }

  predicate EqualFold(a: string, b: string) {
    |a| == |b| && forall i | 0 <= i < |a| :: Lower(a[i]) == Lower(b[i])
  }

  predicate IsLowerHex(c: char) {
    '0' <= c <= '9' || 'a' <= c <= 'f'
  }

  /** Splitting a byte into two digits and joining them again. */
  lemma Nibbles(b: bv8)
    ensures b >> 4 < 16 && b & 15 < 16
    ensures ((b >> 4) << 4) | (b & 15) == b
  {
  }

  lemma JoinedNibbles(hi: bv8, lo: bv8)
    requires hi < 16 && lo < 16
    ensures ((hi << 4) | lo) >> 4 == hi
    ensures ((hi << 4) | lo) & 15 == lo
  {
  }

  lemma {:induction false} DecodeEncode(bytes: Bytes)
    ensures Decode(Encode(bytes)) == Some(bytes)
  {
    if bytes != [] {
      var text := Encode(bytes);
      assert text[2..] == Encode(bytes[1..]);
      DecodeEncode(bytes[1..]);
      Nibbles(bytes[0]);
      assert bytes == [bytes[0]] + bytes[1..];
    }
  }

  /** Exactly the even-length texts of digits are readable. */
  lemma {:induction false} DecodesIffDigits(s: string)
    ensures Decode(s).Some? <==> |s| % 2 == 0 && forall i | 0 <= i < |s| :: DigitValue(s[i]).Some?
  {
    if |s| >= 2 {
      DecodesIffDigits(s[2..]);
      if Decode(s).Some? {
        forall i | 0 <= i < |s| ensures DigitValue(s[i]).Some? {
          if i >= 2 { assert s[i] == s[2..][i - 2]; }
        }
      }
    }
  }

  /** Byte strings with the same text are the same. */
  lemma EncodeInjective(a: Bytes, b: Bytes)
    requires Encode(a) == Encode(b)
    ensures a == b
  {
    DecodeEncode(a);
    DecodeEncode(b);
  }

  lemma {:induction false} EncodedDigits(bytes: Bytes, i: nat)
    requires i < 2 * |bytes|
    ensures IsLowerHex(Encode(bytes)[i])
  {
    if i >= 2 {
      assert Encode(bytes)[i] == Encode(bytes[1..])[i - 2];
      EncodedDigits(bytes[1..], i - 2);
    }
  }

  /** Each byte prints as its high and then its low four bits, at its own place. */
  lemma {:induction false} EncodedNibbles(bytes: Bytes, j: nat)
    requires j < |bytes|
    ensures DigitValue(Encode(bytes)[2 * j]) == Some(bytes[j] >> 4)
    ensures DigitValue(Encode(bytes)[2 * j + 1]) == Some(bytes[j] & 15)
  {
    if j > 0 {
      EncodedNibbles(bytes[1..], j - 1);
      assert Encode(bytes)[2 * j] == Encode(bytes[1..])[2 * (j - 1)];
      assert Encode(bytes)[2 * j + 1] == Encode(bytes[1..])[2 * (j - 1) + 1];
    }
  }

  lemma {:induction false} EncodeConcat(a: Bytes, b: Bytes)
    ensures Encode(a + b) == Encode(a) + Encode(b)
  {
    if a == [] {
      assert a + b == b;
    } else {
      assert (a + b)[1..] == a[1..] + b;
      EncodeConcat(a[1..], b);
    }
  }

  /** Two readable characters fold together exactly when they read as the same digit. */
  lemma FoldIsSameDigit(c: char, d: bv8)
    requires d < 16 && DigitValue(c).Some?
    ensures Lower(c) == Lower(Digit(d)) <==> DigitValue(c) == Some(d)
  {
  }

  lemma EqualFoldTail(a: string, b: string)
    requires |a| == |b| >= 2
    ensures EqualFold(a, b) <==>
            Lower(a[0]) == Lower(b[0]) && Lower(a[1]) == Lower(b[1]) && EqualFold(a[2..], b[2..])
  {
    if Lower(a[0]) == Lower(b[0]) && Lower(a[1]) == Lower(b[1]) && EqualFold(a[2..], b[2..]) {
      forall i | 0 <= i < |a| ensures Lower(a[i]) == Lower(b[i]) {
        if i >= 2 {
          assert a[i] == a[2..][i - 2] && b[i] == b[2..][i - 2];
        }
      }
    }
  }

  /** Two readable digits fold to the two digits of a byte exactly when they join to that byte. */
  lemma HeadFoldsIff(c: char, d: char, b: bv8)
    requires DigitValue(c).Some? && DigitValue(d).Some?
    ensures Lower(c) == Lower(Digit(b >> 4)) && Lower(d) == Lower(Digit(b & 15)) <==>
            (DigitValue(c).value << 4) | DigitValue(d).value == b
  {
    Nibbles(b);
    JoinedNibbles(DigitValue(c).value, DigitValue(d).value);
    FoldIsSameDigit(c, b >> 4);
    FoldIsSameDigit(d, b & 15);
  }

  /** The text of a non-empty byte string, split after its first byte. */
  lemma EncodedHead(bytes: Bytes)
    requires bytes != []
    ensures var text := Encode(bytes);
            text[0] == Digit(bytes[0] >> 4) && text[1] == Digit(bytes[0] & 15) && text[2..] == Encode(bytes[1..])
  {
  }

  /** A readable text, split after its first two digits. */
  lemma DecodedHead(s: string)
    requires Decode(s).Some? && s != []
    ensures |s| >= 2 && DigitValue(s[0]).Some? && DigitValue(s[1]).Some? && Decode(s[2..]).Some?
    ensures Decode(s).value == [(DigitValue(s[0]).value << 4) | DigitValue(s[1]).value] + Decode(s[2..]).value
  {
  }

  lemma SameHeadAndTail(head: bv8, tail: Bytes, bytes: Bytes)
    requires bytes != []
    ensures [head] + tail == bytes <==> head == bytes[0] && tail == bytes[1..]
  {
    assert ([head] + tail)[1..] == tail;
    assert bytes == [bytes[0]] + bytes[1..];
  }

  /** The textual comparison of a readable pin with printed bytes is the comparison of the bytes. */
  lemma {:induction false} EqualFoldIsSameBytes(pin: string, bytes: Bytes)
    requires Decode(pin).Some?
    ensures EqualFold(pin, Encode(bytes)) <==> Decode(pin) == Some(bytes)
  {
    if |pin| == 2 * |bytes| > 0 {
      DecodedHead(pin);
      EncodedHead(bytes);
      EqualFoldIsSameBytes(pin[2..], bytes[1..]);
      HeadFoldsIff(pin[0], pin[1], bytes[0]);
      EqualFoldTail(pin, Encode(bytes));
      SameHeadAndTail((DigitValue(pin[0]).value << 4) | DigitValue(pin[1]).value, Decode(pin[2..]).value, bytes);
    }
  }
}
