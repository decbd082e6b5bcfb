/** The hexadecimal rendering of a digest in the add-files command: each byte written with
    the "X2" format (two upper-case hexadecimal digits), then the whole text lower-cased.
    The result is the lower-case base 16 encoding of section 8 of RFC 4648. */
module Hex {
  import opened Wrappers
  import opened Strings

  type Byte = b: int | 0 <= b < 256

  /** The digit the "X2" format writes for a nibble. */
  function UpperDigit(n: int): char
    requires 0 <= n < 16
  {
    if n < 10 then ('0' as int + n) as char else ('A' as int + n - 10) as char
  }

  /** The lower-case digit of the base 16 alphabet for a nibble. */
  function LowerDigit(n: int): char
    requires 0 <= n < 16
  {
    if n < 10 then ('0' as int + n) as char else ('a' as int + n - 10) as char
  }

  /** The nibble a lower-case hexadecimal digit stands for. */
  function DigitValue(c: char): (r: Option<int>)
    ensures r.Some? ==> 0 <= r.value < 16 && LowerDigit(r.value) == c
  {
    if '0' <= c <= '9' then Some(c as int - '0' as int)
    else if 'a' <= c <= 'f' then Some(c as int - 'a' as int + 10)
    else None
  }

  /** The text the formatting loop has built for some bytes: "X2" of each, in order. */
  function UpperHex(bytes: seq<Byte>): (r: string)
    ensures |r| == 2 * |bytes|
  {
    if bytes == [] then []
    else
      var b := bytes[|bytes| - 1];
      UpperHex(bytes[..|bytes| - 1]) + [UpperDigit(b / 16), UpperDigit(b % 16)]
  }

  /** Lower-case base 16: two digits per byte, high nibble first. */
  function Base16(bytes: seq<Byte>): (r: string)
    ensures |r| == 2 * |bytes|
  {
    if bytes == [] then []
    else
      var b := bytes[|bytes| - 1];
      Base16(bytes[..|bytes| - 1]) + [LowerDigit(b / 16), LowerDigit(b % 16)]
  }

  /** Base 16 decoding, the partner of `Base16`: None for an odd length or a character
      outside the lower-case alphabet. */
  function Decode(s: string): Option<seq<Byte>>
    decreases |s|
  {
    if s == [] then Some([])
    else if |s| < 2 then None
    else
      var prefix := Decode(s[..|s| - 2]);
      var hi := DigitValue(s[|s| - 2]);
      var lo := DigitValue(s[|s| - 1]);
      if prefix.None? || hi.None? || lo.None? then None
      else Some(prefix.value + [hi.value * 16 + lo.value])
  }

  /** Every character of an encoding is a lower-case hexadecimal digit. */
  lemma {:induction false} Base16Alphabet(bytes: seq<Byte>)
    ensures forall i :: 0 <= i < |Base16(bytes)| ==> DigitValue(Base16(bytes)[i]).Some?
  {
    if bytes != [] {
      Base16Alphabet(bytes[..|bytes| - 1]);
    }
  }

  /** A byte is its two nibbles, and each nibble's digit reads back as that nibble. */
  lemma Nibbles(b: Byte)
    ensures 0 <= b / 16 < 16 && 0 <= b % 16 < 16 && b / 16 * 16 + b % 16 == b
    ensures DigitValue(LowerDigit(b / 16)) == Some(b / 16)
    ensures DigitValue(LowerDigit(b % 16)) == Some(b % 16)
  {
  }

  /** Decoding an encoding gives the bytes back. */
  lemma {:induction false} DecodeBase16(bytes: seq<Byte>)
    ensures Decode(Base16(bytes)) == Some(bytes)
  {
    if bytes != [] {
      var init := bytes[..|bytes| - 1];
      var b := bytes[|bytes| - 1];
      var s := Base16(bytes);
      assert s == Base16(init) + [LowerDigit(b / 16), LowerDigit(b % 16)];
      assert s[..|s| - 2] == Base16(init);
      DecodeBase16(init);
      Nibbles(b);
      assert init + [b] == bytes;
    }
  }

  /** Encoding what was decoded gives the text back: the encoding is onto the well-formed
      lower-case texts, so the two are inverse bijections. */
  lemma {:induction false} Base16Decode(s: string)
    requires Decode(s).Some?
    ensures Base16(Decode(s).value) == s
    decreases |s|
  {
    if s != [] {
      var init := s[..|s| - 2];
      Base16Decode(init);
      var bytes := Decode(s).value;
      var hi := DigitValue(s[|s| - 2]).value;
      var lo := DigitValue(s[|s| - 1]).value;
      assert bytes == Decode(init).value + [hi * 16 + lo];
      assert bytes[..|bytes| - 1] == Decode(init).value;
      assert (hi * 16 + lo) / 16 == hi && (hi * 16 + lo) % 16 == lo;
      assert s == init + [s[|s| - 2], s[|s| - 1]];
    }
  }

  /** Lower-casing the "X2" text gives the lower-case encoding. */
  lemma {:induction false} LowerOfUpperHex(bytes: seq<Byte>)
    ensures ToLower(UpperHex(bytes)) == Base16(bytes)
  {
    if bytes != [] {
      var init := bytes[..|bytes| - 1];
      LowerOfUpperHex(init);
      var u := UpperHex(bytes);
      var l := Base16(bytes);
      assert u[..|u| - 2] == UpperHex(init);
      assert l[..|l| - 2] == Base16(init);
      forall i | 0 <= i < |u|
        ensures ToLowerChar(u[i]) == l[i]
      {
        if i < |u| - 2 {
          assert ToLower(UpperHex(init))[i] == ToLowerChar(u[i]);
        }
      }
    }
  }

  /** The formatting loop of GetSha*Hash: "X2" of every byte, appended in order, then the
      whole text lower-cased. */
  method FormatDigest(hash: seq<Byte>) returns (content: string)
    ensures content == Base16(hash)
    ensures |content| == 2 * |hash|
  {
    var formatted := "";
    for i := 0 to |hash|
      invariant formatted == UpperHex(hash[..i])
    {
      var b := hash[i];
      assert hash[..i + 1][..i] == hash[..i];
      formatted := formatted + [UpperDigit(b / 16), UpperDigit(b % 16)];
    }
    assert hash[..|hash|] == hash;
    LowerOfUpperHex(hash);
    content := ToLower(formatted);
  }
}
