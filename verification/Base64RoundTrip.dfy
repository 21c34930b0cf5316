/** What src/util/Base64.cpp is for: decoding undoes encoding, in every form. */
module Base64RoundTrip {
  import opened Base64
  import opened Numbers

  lemma DigitsJoin(b0: nat, b1: nat, b2: nat)
    requires b0 < 256 && b1 < 256 && b2 < 256
    ensures b0 / 4 * 4 + (b0 % 4 * 16 + b1 / 16) / 16 == b0
    ensures (b0 % 4 * 16 + b1 / 16) % 16 * 16 + (b1 % 16 * 4 + b2 / 64) / 4 == b1
    ensures (b1 % 16 * 4 + b2 / 64) % 4 * 64 + b2 % 64 == b2
  {
    QuotientRemainder(b0 % 4 * 16 + b1 / 16, b0 % 4, 16, b1 / 16);
    QuotientRemainder(b1 % 16 * 4 + b2 / 64, b1 % 16, 4, b2 / 64);
  }

  lemma OneByteReturns(b0: Byte, url: bool)
    ensures Chunk(Quad([b0], url)) == Bytes([b0])
  {
    hide Quad, CharAt, PosOfChar, BytesOf, IsDigit, IsPadding;
    var quad := Quad([b0], url);
    QuadOfBytes([b0], url);
    DigitsJoin(b0, 0, 0);
    var p0, p1 := b0 / 4, b0 % 4 * 16;
    PosOfCharAt(p0, url);
    PosOfCharAt(p1, url);
    PaddingIsPadding(url);
    assert DigitsIn(quad) == [CharAt(p0, url), CharAt(p1, url)];
    BytesOfDigits(DigitsIn(quad));
  }

  lemma TwoBytesReturn(b0: Byte, b1: Byte, url: bool)
    ensures Chunk(Quad([b0, b1], url)) == Bytes([b0, b1])
  {
    hide Quad, CharAt, PosOfChar, BytesOf, IsDigit, IsPadding;
    var quad := Quad([b0, b1], url);
    QuadOfBytes([b0, b1], url);
    DigitsJoin(b0, b1, 0);
    var p0, p1, p2 := b0 / 4, b0 % 4 * 16 + b1 / 16, b1 % 16 * 4;
    PosOfCharAt(p0, url);
    PosOfCharAt(p1, url);
    PosOfCharAt(p2, url);
    PaddingIsPadding(url);
    assert DigitsIn(quad) == [CharAt(p0, url), CharAt(p1, url), CharAt(p2, url)];
    BytesOfDigits(DigitsIn(quad));
  }

  lemma ThreeBytesReturn(b0: Byte, b1: Byte, b2: Byte, url: bool)
    ensures Chunk(Quad([b0, b1, b2], url)) == Bytes([b0, b1, b2])
  {
    hide Quad, CharAt, PosOfChar, BytesOf, IsDigit, IsPadding;
    var quad := Quad([b0, b1, b2], url);
    QuadOfBytes([b0, b1, b2], url);
    DigitsJoin(b0, b1, b2);
    var p0, p1, p2, p3 := b0 / 4, b0 % 4 * 16 + b1 / 16, b1 % 16 * 4 + b2 / 64, b2 % 64;
    PosOfCharAt(p0, url);
    PosOfCharAt(p1, url);
    PosOfCharAt(p2, url);
    PosOfCharAt(p3, url);
    assert DigitsIn(quad) == quad;
    BytesOfDigits(quad);
  }

  lemma PaddingIsPadding(url: bool)
    ensures IsPadding(Padding(url)) && Padding(url) != '\n'
  {
  }

  lemma QuadReturns(bytes: seq<Byte>, url: bool)
    requires 1 <= |bytes| <= 3
    ensures Chunk(Quad(bytes, url)) == Bytes(bytes) && |Quad(bytes, url)| == 4
  {
    hide Chunk, CharAt;
    if |bytes| == 1 {
      OneByteReturns(bytes[0], url);
      assert bytes == [bytes[0]];
    } else if |bytes| == 2 {
      TwoBytesReturn(bytes[0], bytes[1], url);
      assert bytes == [bytes[0], bytes[1]];
    } else {
      ThreeBytesReturn(bytes[0], bytes[1], bytes[2], url);
      assert bytes == [bytes[0], bytes[1], bytes[2]];
    }
  }

  /** Decoding undoes encoding, for both alphabets. */
  lemma {:induction false} RoundTrip(bytes: seq<Byte>, url: bool)
    ensures Decode(Encode(bytes, url)) == Bytes(bytes)
  {
    hide Chunk, Quad;
    if bytes == [] {
    } else {
      var first, rest := bytes[..Min(3, |bytes|)], bytes[Min(3, |bytes|)..];
      var quad, s := Quad(first, url), Encode(bytes, url);
      QuadReturns(first, url);
      RoundTrip(rest, url);
      assert s == quad + Encode(rest, url);
      assert s[..Min(4, |s|)] == quad && s[Min(4, |s|)..] == Encode(rest, url);
      assert bytes == first + rest;
    }
  }

  // ----- The shape of the encoded text -----

  function PaddingLength(n: nat): nat {
    if n % 3 == 0 then 0 else 3 - n % 3
  }

  /** A character of the one alphabet and, in the two last places, not of the other. */
  predicate InAlphabet(c: char, url: bool) {
    IsDigit(c) && (if url then c != '+' && c != '/' else c != '-' && c != '_')
  }

  /** Padding fills the places from `from` on, and characters of the right alphabet all places before. */
  ghost predicate PaddedFrom(s: string, from: int, url: bool) {
    forall i | 0 <= i < |s| :: if i < from then InAlphabet(s[i], url) else s[i] == Padding(url)
  }

  lemma CharInAlphabet(i: nat, url: bool)
    requires i < 64
    ensures InAlphabet(CharAt(i, url), url)
  {
    PosOfCharAt(i, url);
    if i < 26 {
      UpperAt(i);
    } else if i < 52 {
      LowerAt(i - 26);
    } else if i < 62 {
      DigitAt(i - 52);
    }
  }

  lemma QuadShape(bytes: seq<Byte>, url: bool)
    requires 1 <= |bytes| <= 3
    ensures PaddedFrom(Quad(bytes, url), |bytes| + 1, url)
  {
    hide CharAt, InAlphabet;
    var n := GroupOf(bytes);
    CharInAlphabet(n / 262144 % 64, url);
    CharInAlphabet(n / 4096 % 64, url);
    CharInAlphabet(n / 64 % 64, url);
    CharInAlphabet(n % 64, url);
  }

  lemma PaddedJoin(s: string, t: string, from: nat, url: bool)
    requires PaddedFrom(s, |s|, url) && PaddedFrom(t, from, url)
    ensures PaddedFrom(s + t, |s| + from, url)
  {
    hide InAlphabet, Padding;
  }

  /** The size the source reserves: four characters for every three bytes begun. */
  function EncodedLength(n: nat): nat {
    (n + 2) / 3 * 4
  }

  lemma LengthsOfRest(n: nat)
    requires n > 0
    ensures EncodedLength(n) == 4 + EncodedLength(n - Min(3, n))
    ensures PaddingLength(n) == if n > 3 then PaddingLength(n - 3) else 3 - n
    ensures PaddingLength(n) <= EncodedLength(n)
  {
  }

  lemma {:induction false} EncodedOnce(bytes: seq<Byte>, url: bool)
    requires bytes != []
    ensures Encode(bytes, url) == Quad(bytes[..Min(3, |bytes|)], url) + Encode(bytes[Min(3, |bytes|)..], url)
  {
    hide Quad;
  }

  lemma {:induction false} EncodedNothing(url: bool)
    ensures EncodedLength(0) == PaddingLength(0) == 0 && Encode([], url) == "" && PaddedFrom("", 0, url)
  {
  }

  /** The reserved size is met, with padding at the very end only, of the kind that goes with the alphabet. */
  lemma {:induction false} EncodedShape(bytes: seq<Byte>, url: bool)
    ensures |Encode(bytes, url)| == EncodedLength(|bytes|)
    ensures PaddedFrom(Encode(bytes, url), |Encode(bytes, url)| - PaddingLength(|bytes|), url)
  {
    hide Quad, PaddedFrom, Padding, EncodedLength, PaddingLength, Encode;
    if bytes == [] {
      EncodedNothing(url);
    } else {
      var first, rest := bytes[..Min(3, |bytes|)], bytes[Min(3, |bytes|)..];
      var quad, s := Quad(first, url), Encode(rest, url);
      EncodedOnce(bytes, url);
      QuadReturns(first, url);
      QuadShape(first, url);
      EncodedShape(rest, url);
      LengthsOfRest(|bytes|);
      if rest == [] {
        EncodedNothing(url);
        assert quad + s == quad;
      } else {
        LengthsOfRest(|rest|);
        PaddedJoin(quad, s, |s| - PaddingLength(|rest|), url);
      }
    }
  }

  // ----- What decodes at all -----

  /** Where a chunk may hold padding: in its third place, and in its fourth; anything goes after padding in the third. */
  predicate Fits(s: string, i: nat)
    requires i < |s|
  {
    IsDigit(s[i]) || (i % 4 == 2 && IsPadding(s[i])) || (i % 4 == 3 && (IsPadding(s[i]) || IsPadding(s[i - 1])))
  }

  lemma ChunkSucceeds(s: string)
    requires 1 <= |s| <= 4
    ensures Chunk(s).Bytes? <==> |s| != 1 && forall i: nat | i < |s| :: Fits(s, i)
    ensures Chunk(s).Bytes? ==> |Chunk(s).bytes| <= 3
  {
    hide IsDigit, IsPadding, PosOfChar;
    if |s| > 1 {
      var digits := DigitsIn(s);
      assert digits[0] == s[0] && digits[1] == s[1];
      assert |digits| > 2 ==> digits[2] == s[2];
      assert |digits| > 3 ==> digits[3] == s[3];
      assert Fits(s, 0) <==> IsDigit(s[0]);
      assert Fits(s, 1) <==> IsDigit(s[1]);
      assert |s| > 2 ==> (Fits(s, 2) <==> IsDigit(s[2]) || IsPadding(s[2]));
      assert |s| > 3 ==> (Fits(s, 3) <==> IsDigit(s[3]) || IsPadding(s[3]) || IsPadding(s[2]));
    }
  }

  /** Exactly these strings decode; every other one is refused with an exception. */
  lemma {:induction false} DecodeSucceeds(s: string)
    ensures Decode(s).Bytes? <==> |s| % 4 != 1 && forall i: nat | i < |s| :: Fits(s, i)
  {
    hide Chunk;
    if s == "" {
    } else {
      var first, rest := s[..Min(4, |s|)], s[Min(4, |s|)..];
      ChunkSucceeds(first);
      DecodeSucceeds(rest);
      forall i: nat | i < |s| ensures Fits(s, i) <==> if i < 4 then Fits(first, i) else Fits(rest, i - 4) {
        if i >= 4 {
          FitsShift(s, i - 4);
        }
      }
      assert forall i: nat | i < |first| :: Fits(s, i) <==> Fits(first, i);
      assert forall i: nat | i < |rest| :: Fits(s, i + 4) <==> Fits(rest, i);
    }
  }

  lemma FitsShift(s: string, i: nat)
    requires i + 4 < |s|
    ensures Fits(s, i + 4) <==> Fits(s[4..], i)
  {
    assert (i + 4) % 4 == i % 4;
    assert i % 4 == 3 ==> i >= 3;
  }

  // ----- Line breaks -----

  lemma {:induction false} WithoutNothing(s: string, c: char)
    requires c !in s
    ensures Without(s, c) == s
  {
    if s == "" {
    } else {
      WithoutNothing(s[1..], c);
      assert s == [s[0]] + s[1..];
    }
  }

  lemma {:induction false} WithoutLine(line: string, rest: string)
    requires '\n' !in line
    ensures Without(line + "\n" + rest, '\n') == line + Without(rest, '\n')
  {
    var s := line + "\n" + rest;
    if line == "" {
      assert s[1..] == rest;
    } else {
      assert s[1..] == line[1..] + "\n" + rest;
      WithoutLine(line[1..], rest);
      assert line == [line[0]] + line[1..];
    }
  }

  /** Taking the newlines out again leaves the text. */
  lemma {:induction false} BreaksComeOut(s: string, distance: nat)
    requires distance > 0 && '\n' !in s
    ensures Without(Broken(s, distance), '\n') == s
  {
    hide Without;
    if |s| <= distance {
      WithoutNothing(s, '\n');
    } else {
      BreaksComeOut(s[distance..], distance);
      WithoutLine(s[..distance], Broken(s[distance..], distance));
      assert s == s[..distance] + s[distance..];
    }
  }

  /** Position on a line that ends with a newline after `distance` characters. */
  function Column(i: nat, distance: nat): nat {
    i % (distance + 1)
  }

  lemma ColumnRepeats(i: nat, distance: nat)
    ensures i <= distance ==> Column(i, distance) == i
    ensures Column(i + distance + 1, distance) == Column(i, distance)
  {
    if i <= distance {
      QuotientRemainder(i, 0, distance + 1, i);
    }
    QuotientRemainder(i + distance + 1, i / (distance + 1) + 1, distance + 1, i % (distance + 1));
  }

  /** Newlines stand in exactly every column `distance`. */
  lemma {:induction false} BreakAt(s: string, distance: nat, i: nat)
    requires distance > 0 && '\n' !in s && i < |Broken(s, distance)|
    ensures Broken(s, distance)[i] == '\n' <==> Column(i, distance) == distance
    decreases i
  {
    hide Column;
    if i <= distance {
      ColumnRepeats(i, distance);
    } else {
      BreakAt(s[distance..], distance, i - distance - 1);
      ColumnRepeats(i - distance - 1, distance);
    }
  }

  /** No newline comes last. */
  lemma {:induction false} NoTrailingBreak(s: string, distance: nat)
    requires distance > 0 && '\n' !in s && s != ""
    ensures var b := Broken(s, distance); b != "" && b[|b| - 1] != '\n'
  {
    if |s| <= distance {
    } else {
      NoTrailingBreak(s[distance..], distance);
    }
  }

  lemma {:induction false} EncodedHasNoBreaks(bytes: seq<Byte>, url: bool)
    ensures '\n' !in Encode(bytes, url)
  {
    if bytes == [] {
    } else {
      var first := bytes[..Min(3, |bytes|)];
      EncodedHasNoBreaks(bytes[Min(3, |bytes|)..], url);
      QuadHasNoBreaks(first, url);
    }
  }

  lemma QuadHasNoBreaks(bytes: seq<Byte>, url: bool)
    requires 1 <= |bytes| <= 3
    ensures '\n' !in Quad(bytes, url)
  {
    hide CharAt;
    var n := GroupOf(bytes);
    PosOfCharAt(n / 262144 % 64, url);
    PosOfCharAt(n / 4096 % 64, url);
    PosOfCharAt(n / 64 % 64, url);
    PosOfCharAt(n % 64, url);
  }

  /** Decoding with the newlines removed undoes every line-broken form, so in particular PEM (64) and MIME (76). */
  lemma {:induction false} BrokenRoundTrip(bytes: seq<Byte>, distance: nat)
    requires distance > 0
    ensures DecodeWith(Broken(Encode(bytes, false), distance), true) == Bytes(bytes)
  {
    EncodedHasNoBreaks(bytes, false);
    BreaksComeOut(Encode(bytes, false), distance);
    RoundTrip(bytes, false);
  }

  /** Without that option only a text on a single line comes back. */
  lemma {:induction false} BrokenNeedsRemoval(bytes: seq<Byte>, distance: nat)
    requires distance > 0 && distance % 4 == 0
    ensures DecodeWith(Broken(Encode(bytes, false), distance), false) == Bytes(bytes) <==>
      |Encode(bytes, false)| <= distance
  {
    var s := Encode(bytes, false);
    var b := Broken(s, distance);
    if |s| <= distance {
      RoundTrip(bytes, false);
    } else {
      EncodedHasNoBreaks(bytes, false);
      assert b[distance] == '\n';
      assert !Fits(b, distance);
      DecodeSucceeds(b);
    }
  }
}
