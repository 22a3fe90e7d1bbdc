/** Base16 as Go's `encoding/hex` does it (section 8 of RFC 4648): encoding
    writes the lower-case alphabet "0123456789abcdef", decoding accepts both
    letter cases and rejects odd lengths and non-hex characters. */
module Hex {
  import opened Wrappers
  import opened Bytes

  /** `hex.ErrLength` and `hex.InvalidByteError`. */
  datatype DecodeError = ErrLength | InvalidByte(b: byte)

  /** '0'-'9', 'a'-'f' or 'A'-'F'. */
  predicate IsHexDigit(c: byte)
  {
    '0' as byte <= c <= '9' as byte || 'a' as byte <= c <= 'f' as byte || 'A' as byte <= c <= 'F' as byte
  }

  /** '0'-'9' or 'a'-'f': the characters the encoder writes. */
  predicate IsLowerHexDigit(c: byte)
  {
    '0' as byte <= c <= '9' as byte || 'a' as byte <= c <= 'f' as byte
  }

  /** The nibble a hex digit stands for. */
  function ValueOf(c: byte): (v: nat)
    requires IsHexDigit(c)
    ensures v < 16
  {
    if c <= '9' as byte then (c - '0' as byte) as nat
    else if c >= 'a' as byte then (c - 'a' as byte) as nat + 10
    else (c - 'A' as byte) as nat + 10
  }

  /** The lower-case digit of a nibble. */
  function Digit(n: nat): (c: byte)
    requires n < 16
    ensures IsLowerHexDigit(c) && IsHexDigit(c) && ValueOf(c) == n
  {
    if n < 10 then '0' as byte + n as byte else 'a' as byte + (n - 10) as byte
  }

  /** A hex digit with its letter, if any, in lower case. */
  function Lower(c: byte): (l: byte)
    requires IsHexDigit(c)
    ensures IsLowerHexDigit(l) && ValueOf(l) == ValueOf(c)
  {
    if 'A' as byte <= c <= 'F' as byte then c - 'A' as byte + 'a' as byte else c
  }

  /** A string of hex digits with every letter in lower case. */
  function LowerAll(s: Bytes): (r: Bytes)
    requires forall i | 0 <= i < |s| :: IsHexDigit(s[i])
    ensures |r| == |s| && forall i | 0 <= i < |s| :: r[i] == Lower(s[i])
  {
    if s == [] then [] else [Lower(s[0])] + LowerAll(s[1..])
  }

  /** `hex.EncodeToString`: two lower-case digits per byte, high nibble first. */
  function Encode(s: Bytes): (r: Bytes)
    ensures |r| == 2 * |s|
    ensures forall i | 0 <= i < |s| :: r[2 * i] == Digit(s[i] as nat / 16) && r[2 * i + 1] == Digit(s[i] as nat % 16)
  {
    if s == [] then []
    else
      var rest := Encode(s[1..]);
      var r := [Digit(s[0] as nat / 16), Digit(s[0] as nat % 16)] + rest;
      assert forall i | 1 <= i < |s| :: r[2 * i] == rest[2 * (i - 1)] && r[2 * i + 1] == rest[2 * (i - 1) + 1];
      r
  }

  /** `hex.DecodeString`. Pairs are read left to right and the first bad
      digit is reported; an odd length is reported as `ErrLength` unless the
      trailing character is itself not a hex digit. */
  function Decode(s: Bytes): (r: Result<Bytes, DecodeError>)
    ensures r.Success? <==> |s| % 2 == 0 && forall i | 0 <= i < |s| :: IsHexDigit(s[i])
    ensures r.Success? ==> |r.value| == |s| / 2
    ensures r.Success? ==> forall i | 0 <= i < |r.value| ::
              r.value[i] as nat == 16 * ValueOf(s[2 * i]) + ValueOf(s[2 * i + 1])
    ensures r.Failure? && r.error.InvalidByte? ==> !IsHexDigit(r.error.b) && r.error.b in s
  {
    if |s| == 0 then Success([])
    else if |s| == 1 then (if IsHexDigit(s[0]) then Failure(ErrLength) else Failure(InvalidByte(s[0])))
    else if !IsHexDigit(s[0]) then Failure(InvalidByte(s[0]))
    else if !IsHexDigit(s[1]) then Failure(InvalidByte(s[1]))
    else
      match Decode(s[2..])
      case Failure(e) =>
        assert !(forall i | 0 <= i < |s[2..]| :: IsHexDigit(s[2..][i])) || |s[2..]| % 2 != 0;
        Failure(e)
      case Success(rest) =>
        var r := [(16 * ValueOf(s[0]) + ValueOf(s[1])) as byte] + rest;
        assert forall i | 1 <= i < |r| :: r[i] == rest[i - 1] && s[2 * i] == s[2..][2 * (i - 1)] && s[2 * i + 1] == s[2..][2 * (i - 1) + 1];
        Success(r)
  }

  /** Every character the encoder writes is a lower-case hex digit. */
  lemma {:induction false} EncodeDigits(b: Bytes)
    ensures forall j | 0 <= j < |Encode(b)| :: IsLowerHexDigit(Encode(b)[j])
  {
    if b != [] {
      EncodeDigits(b[1..]);
      assert Encode(b) == [Digit(b[0] as nat / 16), Digit(b[0] as nat % 16)] + Encode(b[1..]);
    }
  }

  /** Decoding what the encoder wrote gives back the original bytes. */
  lemma {:induction false} DecodeEncode(b: Bytes)
    ensures Decode(Encode(b)) == Success(b)
  {
    if b != [] {
      var hi, lo := Digit(b[0] as nat / 16), Digit(b[0] as nat % 16);
      var e := Encode(b);
      assert e == [hi, lo] + Encode(b[1..]);
      assert e[2..] == Encode(b[1..]);
      DecodeEncode(b[1..]);
      Recombine(b[0]);
      assert Decode(e) == Success([(16 * ValueOf(hi) + ValueOf(lo)) as byte] + b[1..]);
      assert (16 * ValueOf(hi) + ValueOf(lo)) as byte == b[0];
      assert [b[0]] + b[1..] == b;
    }
  }

  /** A byte is sixteen times its high nibble plus its low nibble. */
  lemma Recombine(x: byte)
    ensures 16 * (x as nat / 16) + x as nat % 16 == x as nat
  {
  }

  /** The byte two digits stand for, split back into its nibbles. */
  lemma Nibbles(hi: nat, lo: nat)
    requires hi < 16 && lo < 16
    ensures (16 * hi + lo) / 16 == hi && (16 * hi + lo) % 16 == lo
  {
  }

  /** Encoding what the decoder accepted gives back the input with its
      letters in lower case: decoding loses only the letter case. */
  lemma {:induction false} EncodeDecode(s: Bytes)
    requires Decode(s).Success?
    ensures Encode(Decode(s).value) == LowerAll(s)
  {
    if |s| > 0 {
      var hi, lo := ValueOf(s[0]), ValueOf(s[1]);
      var x := (16 * hi + lo) as byte;
      var rest := Decode(s[2..]).value;
      assert Decode(s).value == [x] + rest;
      EncodeDecode(s[2..]);
      Nibbles(hi, lo);
      DigitOfValue(Lower(s[0]));
      DigitOfValue(Lower(s[1]));
      EncodeCons(x, rest);
      LowerAllPair(s);
    }
  }

  /** Encoding a byte in front encodes it in front. */
  lemma EncodeCons(x: byte, rest: Bytes)
    ensures Encode([x] + rest) == [Digit(x as nat / 16), Digit(x as nat % 16)] + Encode(rest)
  {
    assert ([x] + rest)[1..] == rest;
  }

  /** Lower-casing a string of at least two digits, two at a time. */
  lemma LowerAllPair(s: Bytes)
    requires |s| >= 2 && forall i | 0 <= i < |s| :: IsHexDigit(s[i])
    ensures LowerAll(s) == [Lower(s[0]), Lower(s[1])] + LowerAll(s[2..])
  {
    assert s[1..][1..] == s[2..];
  }

  /** A lower-case digit is the digit of its own value. */
  lemma DigitOfValue(c: byte)
    requires IsLowerHexDigit(c)
    ensures Digit(ValueOf(c)) == c
  {
  }

  /** The first 2n characters of an encoding are the encoding of the first n bytes. */
  lemma {:induction false} EncodePrefix(s: Bytes, n: nat)
    requires n <= |s|
    ensures Encode(s)[..2 * n] == Encode(s[..n])
  {
    if n > 0 {
      EncodePrefix(s[1..], n - 1);
      assert s[..n][1..] == s[1..][..n - 1];
      assert Encode(s) == [Digit(s[0] as nat / 16), Digit(s[0] as nat % 16)] + Encode(s[1..]);
      assert Encode(s[..n]) == [Digit(s[0] as nat / 16), Digit(s[0] as nat % 16)] + Encode(s[..n][1..]);
    }
  }
}
