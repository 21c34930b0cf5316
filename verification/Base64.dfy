/**
 Base64 as in src/util/Base64.cpp: both alphabets of RFC 4648 (sections 4 and 5, the url form padded with dots here) and
 the 64- and 76-column line-broken forms (76: section 6.8 of RFC 2045).

 Bytes are integers below 256. A mask followed by a shift is written as the division and remainder it amounts to:
 `(b & 0xfc) >> 2` is `b / 4`, `(b & 0x03) << 4` is `b % 4 * 16`, and so on.
 */
module Base64 {
  import opened Numbers

  type Byte = b: int | 0 <= b < 256

  datatype Decoded = Bytes(bytes: seq<Byte>) | InvalidCharacter | OutOfRange

  const UPPER := "ABCDEFGHIJKLMNOPQRSTUVWXYZ"
  const LOWER := "abcdefghijklmnopqrstuvwxyz"
  const DIGITS := "0123456789"

  const TWO_TO_THE_32 := 0x1_0000_0000

  /** `unsigned int` arithmetic. */
  function Wrap32(x: nat): nat {
    x % TWO_TO_THE_32
  }

  // ----- The alphabets -----

  /** The character at a position of `base64_chars[url]`. */
  function CharAt(i: nat, url: bool): char
    requires i < 64
  {
    if i < 26 then UPPER[i]
    else if i < 52 then LOWER[i - 26]
    else if i < 62 then DIGITS[i - 52]
    else if i == 62 then (if url then '-' else '+')
    else (if url then '_' else '/')
  }

  function Padding(url: bool): char {
    if url then '.' else '='
  }

  predicate IsDigit(c: char) {
    'A' <= c <= 'Z' || 'a' <= c <= 'z' || '0' <= c <= '9' || c == '+' || c == '-' || c == '/' || c == '_'
  }

  predicate IsPadding(c: char) {
    c == '=' || c == '.'
  }

  /** `pos_of_char` on the characters for which it does not throw. */
  function PosOfChar(c: char): (i: nat)
    requires IsDigit(c)
    ensures i < 64
  {
    if 'A' <= c <= 'Z' then (c - 'A') as int
    else if 'a' <= c <= 'z' then (c - 'a') as int + 26
    else if '0' <= c <= '9' then (c - '0') as int + 52
    else if c == '+' || c == '-' then 62
    else 63
  }

  lemma UpperAt(i: nat)
    requires i < 26
    ensures UPPER[i] == 'A' + i as char
  {
  }

  lemma LowerAt(i: nat)
    requires i < 26
    ensures LOWER[i] == 'a' + i as char
  {
  }

  lemma DigitAt(i: nat)
    requires i < 10
    ensures DIGITS[i] == '0' + i as char
  {
  }

  lemma PosOfCharAt(i: nat, url: bool)
    requires i < 64
    ensures IsDigit(CharAt(i, url)) && PosOfChar(CharAt(i, url)) == i
    ensures !IsPadding(CharAt(i, url)) && CharAt(i, url) != '\n'
  {
    if i < 26 {
      UpperAt(i);
    } else if i < 52 {
      LowerAt(i - 26);
    } else if i < 62 {
      DigitAt(i - 52);
    }
  }

  const SECTION_4 := "ABCDEFGHIJKLMNOPQRSTUVWXYZ" + "abcdefghijklmnopqrstuvwxyz" + "0123456789" + "+/"
  const SECTION_5 := "ABCDEFGHIJKLMNOPQRSTUVWXYZ" + "abcdefghijklmnopqrstuvwxyz" + "0123456789" + "-_"

  /** The two alphabets of RFC 4648, letter by letter, and the paddings. */
  lemma AlphabetsOfRfc4648(i: nat)
    requires i < 64
    ensures |SECTION_4| == |SECTION_5| == 64 && CharAt(i, false) == SECTION_4[i] && CharAt(i, true) == SECTION_5[i]
    ensures Padding(false) == '=' && Padding(true) == '.'
  {
  }

  // ----- Encoding -----

  function Join3(b0: nat, b1: nat, b2: nat): nat {
    b0 * 65536 + b1 * 256 + b2
  }

  /** Up to three bytes as a 24-bit group, missing bytes zero. */
  function GroupOf(bytes: seq<Byte>): nat
    requires 1 <= |bytes| <= 3
  {
    Join3(bytes[0], if |bytes| > 1 then bytes[1] else 0, if |bytes| > 2 then bytes[2] else 0)
  }

  /** The four characters of a group: its 6-bit digits, with padding for what no byte reaches. */
  function Quad(bytes: seq<Byte>, url: bool): string
    requires 1 <= |bytes| <= 3
  {
    var n := GroupOf(bytes);
    [CharAt(n / 262144 % 64, url),
     CharAt(n / 4096 % 64, url),
     if |bytes| > 1 then CharAt(n / 64 % 64, url) else Padding(url),
     if |bytes| > 2 then CharAt(n % 64, url) else Padding(url)]
  }

  function Encode(bytes: seq<Byte>, url: bool): string {
    if bytes == [] then ""
    else Quad(bytes[..Min(3, |bytes|)], url) + Encode(bytes[Min(3, |bytes|)..], url)
  }

  lemma DigitsOfGroup(b0: nat, b1: nat, b2: nat)
    requires b0 < 256 && b1 < 256 && b2 < 256
    ensures Join3(b0, b1, b2) / 262144 % 64 == b0 / 4
    ensures Join3(b0, b1, b2) / 4096 % 64 == b0 % 4 * 16 + b1 / 16
    ensures Join3(b0, b1, b2) / 64 % 64 == b1 % 16 * 4 + b2 / 64
    ensures Join3(b0, b1, b2) % 64 == b2 % 64
  {
    var n, high := Join3(b0, b1, b2), b0 * 16 + b1 / 16;
    QuotientRemainder(n, b0 / 4, 262144, b0 % 4 * 65536 + b1 * 256 + b2);
    QuotientRemainder(n, high, 4096, b1 % 16 * 256 + b2);
    QuotientRemainder(high, b0 / 4, 64, b0 % 4 * 16 + b1 / 16);
    QuotientRemainder(n, high * 64 + (b1 % 16 * 4 + b2 / 64), 64, b2 % 64);
    QuotientRemainder(n / 64, high, 64, b1 % 16 * 4 + b2 / 64);
  }

  /** The masks and shifts of the source pick the 6-bit digits out of neighbouring bytes. */
  lemma QuadOfBytes(bytes: seq<Byte>, url: bool)
    requires 1 <= |bytes| <= 3
    ensures
      var b0 := bytes[0];
      |bytes| == 1 ==>
      Quad(bytes, url) == [CharAt(b0 / 4, url), CharAt(b0 % 4 * 16, url), Padding(url), Padding(url)]
    ensures |bytes| == 2 ==>
      var b0, b1 := bytes[0], bytes[1];
      Quad(bytes, url) ==
      [CharAt(b0 / 4, url), CharAt(b0 % 4 * 16 + b1 / 16, url), CharAt(b1 % 16 * 4, url), Padding(url)]
    ensures |bytes| == 3 ==>
      var b0, b1, b2 := bytes[0], bytes[1], bytes[2];
      Quad(bytes, url) ==
      [CharAt(b0 / 4, url), CharAt(b0 % 4 * 16 + b1 / 16, url), CharAt(b1 % 16 * 4 + b2 / 64, url), CharAt(b2 % 64, url)]
  {
    hide Join3, CharAt;
    DigitsOfGroup(bytes[0], if |bytes| > 1 then bytes[1] else 0, if |bytes| > 2 then bytes[2] else 0);
  }

  lemma ShortVectors()
    ensures Quad([102], false) == "Zg==" && Quad([102, 111], false) == "Zm8="
    ensures Quad([251, 255], false) == "+/8=" && Quad([251, 255], true) == "-_8."
  {
    hide Quad;
    QuadOfBytes([102], false);
    QuadOfBytes([102, 111], false);
    QuadOfBytes([251, 255], false);
    QuadOfBytes([251, 255], true);
  }

  lemma FooVector()
    ensures Quad([102, 111, 111], false) == "Zm9v"
  {
    hide Quad;
    QuadOfBytes([102, 111, 111], false);
  }

  lemma BarVector()
    ensures Quad([98, 97, 114], false) == "YmFy"
  {
    hide Quad;
    QuadOfBytes([98, 97, 114], false);
  }

  /** Three of the test vectors of RFC 4648, section 10, and what becomes of "+/" in the alphabet of section 5. */
  lemma VectorsOfRfc4648()
    ensures Encode([102], false) == "Zg==" && Encode([102, 111], false) == "Zm8="
    ensures Encode([102, 111, 111, 98, 97, 114], false) == "Zm9vYmFy"
    ensures Encode([251, 255], false) == "+/8=" && Encode([251, 255], true) == "-_8."
  {
    hide Quad;
    ShortVectors();
    FooVector();
    BarVector();
    EncodeOne([102], false);
    EncodeOne([102, 111], false);
    EncodeOne([251, 255], false);
    EncodeOne([251, 255], true);
    EncodeOne([98, 97, 114], false);
    assert [102, 111, 111, 98, 97, 114][..3] == [102, 111, 111] && [102, 111, 111, 98, 97, 114][3..] == [98, 97, 114];
  }

  lemma {:induction false} EncodeOne(bytes: seq<Byte>, url: bool)
    requires 1 <= |bytes| <= 3
    ensures Encode(bytes, url) == Quad(bytes, url)
  {
    hide Quad;
    assert bytes[..|bytes|] == bytes && bytes[|bytes|..] == [];
  }

  method EncodeQuad(bytes: seq<Byte>, pos: nat, url: bool) returns (quad: string)
    requires pos < |bytes| < TWO_TO_THE_32
    ensures quad == Quad(bytes[pos..Min(pos + 3, |bytes|)], url)
  {
    hide Quad, CharAt;
    QuadOfBytes(bytes[pos..Min(pos + 3, |bytes|)], url);
    var inLen := |bytes|;
    var b0 := bytes[pos];
    quad := [CharAt(b0 / 4, url)];
    if Wrap32(pos + 1) < inLen {
      var b1 := bytes[pos + 1];
      if Wrap32(pos + 2) < inLen {
        var b2 := bytes[pos + 2];
        quad := quad + [CharAt(b0 % 4 * 16 + b1 / 16, url)] +
          [CharAt(b1 % 16 * 4 + b2 / 64, url)] + [CharAt(b2 % 64, url)];
      } else {
        quad := quad + [CharAt(b0 % 4 * 16 + b1 / 16, url)] + [CharAt(b1 % 16 * 4, url)] + [Padding(url)];
      }
    } else {
      quad := quad + [CharAt(b0 % 4 * 16, url)] + [Padding(url)] + [Padding(url)];
    }
  }

  lemma {:induction false} EncodeFrom(bytes: seq<Byte>, pos: nat, url: bool)
    requires pos < |bytes|
    ensures Encode(bytes[pos..], url) ==
      Quad(bytes[pos..Min(pos + 3, |bytes|)], url) + Encode(bytes[Min(pos + 3, |bytes|)..], url)
  {
    hide Quad;
    var rest := bytes[pos..];
    assert rest[..Min(3, |rest|)] == bytes[pos..Min(pos + 3, |bytes|)];
    assert rest[Min(3, |rest|)..] == bytes[Min(pos + 3, |bytes|)..];
  }

  lemma {:induction false} EncodeNothing(url: bool)
    ensures Encode([], url) == ""
  {
  }

  /** The position after so many turns of the loop: a 32-bit `unsigned int`. */
  function PosAfter(turns: nat): nat {
    if turns == 0 then 0 else Wrap32(PosAfter(turns - 1) + 3)
  }

  lemma {:induction false} PosBeforeWrap(turns: nat)
    requires 3 * turns < TWO_TO_THE_32
    ensures PosAfter(turns) == 3 * turns
  {
    if turns == 0 {
    } else {
      PosBeforeWrap(turns - 1);
    }
  }

  /** The loop of `base64_encode` comes to an end exactly for inputs below 2^32 bytes: for longer ones the position wraps
      around below the length for ever. */
  lemma EncodingEnds(length: nat)
    ensures (exists turns: nat :: PosAfter(turns) >= length) <==> length < TWO_TO_THE_32
  {
    if length < TWO_TO_THE_32 {
      var turns := (length + 2) / 3;
      PosBeforeWrap(turns);
    } else {
      forall turns: nat ensures PosAfter(turns) < length {
        PosIs32Bits(turns);
      }
    }
  }

  lemma {:induction false} PosIs32Bits(turns: nat)
    ensures PosAfter(turns) < TWO_TO_THE_32
  {
  }

  /** Inputs of 2^32 bytes and more are left out: the source does not finish on them (`EncodingEnds`). */
  method Base64Encode(bytes: seq<Byte>, url: bool) returns (ret: string)
    requires |bytes| < TWO_TO_THE_32
    ensures ret == Encode(bytes, url)
  {
    hide Encode, Quad;
    ret := "";
    var pos: nat := 0;
    ghost var turns: nat := 0;
    assert bytes[0..] == bytes;
    while pos < |bytes|
      invariant pos < TWO_TO_THE_32 && pos % 3 == 0 && pos == PosAfter(turns)
      invariant Encode(bytes, url) == ret + Encode(bytes[Min(pos, |bytes|)..], url)
      decreases |bytes| - pos
    {
      EncodeFrom(bytes, pos, url);
      var quad := EncodeQuad(bytes, pos, url);
      ret := ret + quad;
      pos := Wrap32(pos + 3);
      turns := turns + 1;
    }
    assert bytes[|bytes|..] == [];
    EncodeNothing(url);
  }

  // ----- Decoding -----

  predicate AllDigits(s: string) {
    forall i | 0 <= i < |s| :: IsDigit(s[i])
  }

  /** The digits of a chunk, up to the first padding in its second half. */
  function DigitsIn(chunk: string): (digits: string)
    requires 2 <= |chunk| <= 4
  {
    if |chunk| == 2 || IsPadding(chunk[2]) then chunk[..2]
    else if |chunk| == 3 || IsPadding(chunk[3]) then chunk[..3]
    else chunk
  }

  function Join4(p0: nat, p1: nat, p2: nat, p3: nat): nat {
    p0 * 262144 + p1 * 4096 + p2 * 64 + p3
  }

  /** Two to four digits as a 24-bit group, missing digits zero. */
  function ValueOf(digits: string): nat
    requires 2 <= |digits| <= 4 && AllDigits(digits)
  {
    Join4(
      PosOfChar(digits[0]), PosOfChar(digits[1]),
      if |digits| > 2 then PosOfChar(digits[2]) else 0, if |digits| > 3 then PosOfChar(digits[3]) else 0)
  }

  /** One byte fewer than there are digits. */
  function BytesOf(digits: string): seq<Byte>
    requires 2 <= |digits| <= 4 && AllDigits(digits)
  {
    var n := ValueOf(digits);
    [n / 65536 % 256, n / 256 % 256, n % 256][..|digits| - 1]
  }

  function Chunk(chunk: string): Decoded
    requires 1 <= |chunk| <= 4
  {
    if |chunk| == 1 then OutOfRange
    else if !AllDigits(DigitsIn(chunk)) then InvalidCharacter
    else Bytes(BytesOf(DigitsIn(chunk)))
  }

  /** An exception discards what was decoded before it. */
  function After(bytes: seq<Byte>, rest: Decoded): Decoded {
    if rest.Bytes? then Bytes(bytes + rest.bytes) else rest
  }

  function Decode(s: string): Decoded {
    if s == "" then Bytes([])
    else
      var first := Chunk(s[..Min(4, |s|)]);
      if first.Bytes? then After(first.bytes, Decode(s[Min(4, |s|)..])) else first
  }

  function Without(s: string, c: char): (r: string)
    ensures c !in r
  {
    if s == "" then "" else (if s[0] == c then "" else [s[0]]) + Without(s[1..], c)
  }

  function DecodeWith(s: string, removeLinebreaks: bool): Decoded {
    Decode(if removeLinebreaks then Without(s, '\n') else s)
  }

  lemma BytesOfValue(p0: nat, p1: nat, p2: nat, p3: nat)
    requires p0 < 64 && p1 < 64 && p2 < 64 && p3 < 64
    ensures Join4(p0, p1, p2, p3) / 65536 % 256 == p0 * 4 + p1 / 16
    ensures Join4(p0, p1, p2, p3) / 256 % 256 == p1 % 16 * 16 + p2 / 4
    ensures Join4(p0, p1, p2, p3) % 256 == p2 % 4 * 64 + p3
  {
    var n, high := Join4(p0, p1, p2, p3), p0 * 4 + p1 / 16;
    QuotientRemainder(n, high, 65536, p1 % 16 * 4096 + p2 * 64 + p3);
    QuotientRemainder(n, high * 256 + (p1 % 16 * 16 + p2 / 4), 256, p2 % 4 * 64 + p3);
    QuotientRemainder(n / 256, high, 256, p1 % 16 * 16 + p2 / 4);
  }

  /** The masks and shifts of the source put the bytes back together. */
  lemma BytesOfDigits(digits: string)
    requires 2 <= |digits| <= 4 && AllDigits(digits)
    ensures
      var p0, p1 := PosOfChar(digits[0]), PosOfChar(digits[1]);
      |digits| == 2 ==> BytesOf(digits) == [p0 * 4 + p1 / 16]
    ensures |digits| == 3 ==>
      var p0, p1, p2 := PosOfChar(digits[0]), PosOfChar(digits[1]), PosOfChar(digits[2]);
      BytesOf(digits) == [p0 * 4 + p1 / 16, p1 % 16 * 16 + p2 / 4]
    ensures |digits| == 4 ==>
      var p0, p1, p2, p3 := PosOfChar(digits[0]), PosOfChar(digits[1]), PosOfChar(digits[2]), PosOfChar(digits[3]);
      BytesOf(digits) == [p0 * 4 + p1 / 16, p1 % 16 * 16 + p2 / 4, p2 % 4 * 64 + p3]
  {
    hide Join4, PosOfChar, IsDigit;
    BytesOfValue(
      PosOfChar(digits[0]), PosOfChar(digits[1]),
      if |digits| > 2 then PosOfChar(digits[2]) else 0, if |digits| > 3 then PosOfChar(digits[3]) else 0);
  }

  method DecodeChunk(s: string, pos: nat) returns (r: Decoded)
    requires pos < |s|
    ensures r == Chunk(s[pos..Min(pos + 4, |s|)])
  {
    hide BytesOf, PosOfChar, IsDigit;
    ghost var chunk := s[pos..Min(pos + 4, |s|)];
    if pos + 1 >= |s| {
      return OutOfRange;
    }
    ghost var digits := DigitsIn(chunk);
    assert chunk[0] == s[pos] && chunk[1] == s[pos + 1];
    assert digits[0] == s[pos] && digits[1] == s[pos + 1];
    if !IsDigit(s[pos + 1]) {
      return InvalidCharacter;
    }
    var p1 := PosOfChar(s[pos + 1]);
    if !IsDigit(s[pos]) {
      return InvalidCharacter;
    }
    var p0 := PosOfChar(s[pos]);
    var ret: seq<Byte> := [p0 * 4 + p1 / 16];
    if pos + 2 < |s| && s[pos + 2] != '=' && s[pos + 2] != '.' {
      assert chunk[2] == s[pos + 2] && digits[2] == s[pos + 2];
      if !IsDigit(s[pos + 2]) {
        return InvalidCharacter;
      }
      var p2 := PosOfChar(s[pos + 2]);
      ret := ret + [p1 % 16 * 16 + p2 / 4];
      if pos + 3 < |s| && s[pos + 3] != '=' && s[pos + 3] != '.' {
        assert chunk[3] == s[pos + 3] && digits[3] == s[pos + 3];
        if !IsDigit(s[pos + 3]) {
          return InvalidCharacter;
        }
        var p3 := PosOfChar(s[pos + 3]);
        ret := ret + [p2 % 4 * 64 + p3];
      }
    }
    BytesOfDigits(digits);
    r := Bytes(ret);
  }

  lemma DecodeFrom(s: string, pos: nat)
    requires pos < |s|
    ensures
      var first := Chunk(s[pos..Min(pos + 4, |s|)]);
      Decode(s[pos..]) == if first.Bytes? then After(first.bytes, Decode(s[Min(pos + 4, |s|)..])) else first
  {
    hide Chunk;
    var rest := s[pos..];
    assert rest[..Min(4, |rest|)] == s[pos..Min(pos + 4, |s|)];
    assert rest[Min(4, |rest|)..] == s[Min(pos + 4, |s|)..];
  }

  lemma AfterNothing(rest: Decoded)
    ensures After([], rest) == rest
  {
  }

  lemma AfterBoth(bytes: seq<Byte>, first: Decoded, rest: Decoded)
    ensures first.Bytes? ==> After(bytes, After(first.bytes, rest)) == After(bytes + first.bytes, rest)
    ensures !first.Bytes? ==> After(bytes, first) == first
    ensures After(bytes, Bytes([])) == Bytes(bytes)
  {
    if first.Bytes? && rest.Bytes? {
      assert bytes + (first.bytes + rest.bytes) == (bytes + first.bytes) + rest.bytes;
    }
    assert bytes + [] == bytes;
  }

  lemma DecodeNothing()
    ensures Decode("") == Bytes([])
  {
  }

  method Base64Decode(s: string, removeLinebreaks: bool) returns (r: Decoded)
    ensures r == DecodeWith(s, removeLinebreaks)
    decreases removeLinebreaks
  {
    if s == "" {
      return Bytes([]);
    }
    if removeLinebreaks {
      var copy := Without(s, '\n');
      r := Base64Decode(copy, false);
      return;
    }
    hide Decode, Chunk, After;
    AfterNothing(Decode(s));
    var pos: nat := 0;
    var ret: seq<Byte> := [];
    assert s[0..] == s;
    while pos < |s|
      invariant Decode(s) == After(ret, Decode(s[Min(pos, |s|)..]))
    {
      DecodeFrom(s, pos);
      var chunk := DecodeChunk(s, pos);
      AfterBoth(ret, chunk, Decode(s[Min(pos + 4, |s|)..]));
      if !chunk.Bytes? {
        return chunk;
      }
      ret := ret + chunk.bytes;
      pos := pos + 4;
    }
    assert s[|s|..] == "";
    DecodeNothing();
    AfterBoth(ret, Bytes([]), Bytes([]));
    r := Bytes(ret);
  }

  // ----- Line breaks -----

  /** A newline after every full line that something follows. */
  function Broken(s: string, distance: nat): string
    requires distance > 0
  {
    if |s| <= distance then s else s[..distance] + "\n" + Broken(s[distance..], distance)
  }

  lemma {:induction false} BrokenOnce(s: string, distance: nat)
    requires 0 < distance < |s|
    ensures Broken(s, distance) == s[..distance] + "\n" + Broken(s[distance..], distance)
  {
  }

  lemma BreakOne(str: string, pos: nat, distance: nat)
    requires 0 < distance <= pos < |str|
    ensures var next := str[..pos] + "\n" + str[pos..];
      next[..pos + 1] + Broken(next[pos + 1..], distance) ==
      str[..pos - distance] + Broken(str[pos - distance..], distance)
  {
    hide Broken;
    var next, from := str[..pos] + "\n" + str[pos..], pos - distance;
    var line := str[from..];
    BrokenOnce(line, distance);
    assert line[..distance] == str[from..pos] && line[distance..] == str[pos..];
    assert str[..from] + str[from..pos] == str[..pos];
    assert next[..pos + 1] == str[..pos] + "\n" && next[pos + 1..] == str[pos..];
  }

  lemma {:induction false} BreakNone(str: string, from: nat, distance: nat)
    requires distance > 0 && |str| - distance <= from <= |str|
    ensures str[..from] + Broken(str[from..], distance) == str
  {
  }

  method InsertLinebreaks(s: string, distance: nat) returns (str: string)
    requires distance > 0
    ensures str == Broken(s, distance)
  {
    str := s;
    if |str| == 0 {
      return "";
    }
    var pos := distance;
    assert str[..0] + Broken(str[0..], distance) == Broken(s, distance) by {
      assert str[..0] == "" && str[0..] == str;
    }
    hide Broken;
    while pos < |str|
      invariant distance <= pos <= |str| + distance
      invariant str[..pos - distance] + Broken(str[pos - distance..], distance) == Broken(s, distance)
      decreases |str| + distance - pos, |s|
    {
      BreakOne(str, pos, distance);
      str := str[..pos] + "\n" + str[pos..];
      pos := pos + distance + 1;
    }
    BreakNone(str, pos - distance, distance);
  }

  method EncodePem(bytes: seq<Byte>) returns (ret: string)
    requires |bytes| < TWO_TO_THE_32
    ensures ret == Broken(Encode(bytes, false), 64)
  {
    var plain := Base64Encode(bytes, false);
    ret := InsertLinebreaks(plain, 64);
  }

  method EncodeMime(bytes: seq<Byte>) returns (ret: string)
    requires |bytes| < TWO_TO_THE_32
    ensures ret == Broken(Encode(bytes, false), 76)
  {
    var plain := Base64Encode(bytes, false);
    ret := InsertLinebreaks(plain, 76);
  }
}
