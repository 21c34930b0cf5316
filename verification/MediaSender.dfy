/**
 The chunked upload of a finished recording (src/net/MediaSender.cpp:215-264). `measured` is the length found
 before reading, `content` what reading yields; the two differ if the file changes in between.
 */
module MediaSender {
  import opened Base64
  import opened Numbers
  import opened Base64RoundTrip

  datatype Part = Part(index: nat, total: nat, final: bool, data: string)

  const MIN_CHUNK := 64 * 1024

  /** Number of chunks for `n` bytes. */
  function ChunksFor(n: nat, chunk: nat): nat
    requires chunk > 0
  {
    (n + chunk - 1) / chunk
  }

  /** The parts from position `at` of the file on, the next of them being number `index`. */
  function PartsFrom(content: seq<Byte>, at: nat, index: nat, total: nat, chunk: nat): seq<Part>
    requires at <= |content| && chunk > 0
    decreases |content| - at
  {
    if index >= total || at == |content| then []
    else
      var next := Min(at + chunk, |content|);
      [Part(index, total, index + 1 >= total, Encode(content[at..next], false))] +
      PartsFrom(content, next, index + 1, total, chunk)
  }

  const TWO_TO_THE_64 := 0x1_0000_0000_0000_0000

  /** `std::uintmax_t` arithmetic. */
  function Wrap64(x: int): nat {
    x % TWO_TO_THE_64
  }

  /** `measured` is what seeking to the end told, -1 for a failure; the unsigned length then wraps around and asks for no
      chunk at all. `configured` is a 32-bit int, converted to an unsigned size: when negative, no buffer of that size can
      be had and an exception ends the upload before it starts. */
  method UploadRecording(enabled: bool, readable: bool, measured: int, content: seq<Byte>, configured: int)
    returns (parts: seq<Part>)
    requires -1 <= measured < 0x8000_0000_0000_0000 && -0x8000_0000 <= configured < 0x8000_0000
    ensures parts ==
      if !enabled || !readable || measured < 0 || configured < 0 then []
      else
        var chunk := if configured < 65536 then 65536 else configured;
        PartsFrom(content, 0, 0, ChunksFor(measured, chunk), chunk)
  {
    hide Encode, PartsFrom, ChunksFor, Wrap64;
    parts := [];
    if !enabled {
      return;
    }
    if !readable {
      return;
    }
    var size := Wrap64(measured);
    UnsignedLength(measured);
    if size == 0 {
      ghost var chunk := if configured < MIN_CHUNK then MIN_CHUNK else configured;
      NoChunks(chunk);
      NoPartsLeft(content, 0, 0, 0, chunk);
      return;
    }
    if configured < 0 {
      return;
    }
    var chunk := if configured < MIN_CHUNK then MIN_CHUNK else configured;
    var total := Wrap64(size + chunk - 1) / chunk;
    ChunkCount(measured, chunk);
    if measured < 0 {
      NoPartsLeft(content, 0, 0, total, chunk);
    }
    var good, at, index := true, 0, 0;
    while good && index < total
      invariant at <= |content| && (good || at == |content|)
      invariant parts + PartsFrom(content, at, index, total, chunk) == PartsFrom(content, 0, 0, total, chunk)
      invariant index <= total
      decreases total - index
    {
      var got := Min(chunk, |content| - at);
      var buf := content[at..at + got];
      good := got == chunk;
      if got <= 0 {
        break;
      }
      NextPart(content, at, index, total, chunk);
      var final := index + 1 >= total;
      var data := Base64Encode(buf, false);
      parts := parts + [Part(index, total, final, data)];
      at, index := at + got, index + 1;
    }
    NoPartsLeft(content, at, index, total, chunk);
  }

  lemma NextPart(content: seq<Byte>, at: nat, index: nat, total: nat, chunk: nat)
    requires at < |content| && index < total && chunk > 0
    ensures var next := at + Min(chunk, |content| - at);
      PartsFrom(content, at, index, total, chunk) ==
      [Part(index, total, index + 1 >= total, Encode(content[at..next], false))] +
      PartsFrom(content, next, index + 1, total, chunk)
  {
    hide Encode;
  }

  lemma {:induction false} NoPartsLeft(content: seq<Byte>, at: nat, index: nat, total: nat, chunk: nat)
    requires at <= |content| && chunk > 0 && (at == |content| || index >= total)
    ensures PartsFrom(content, at, index, total, chunk) == []
  {
  }

  lemma NoChunks(chunk: nat)
    requires chunk > 0
    ensures ChunksFor(0, chunk) == 0
  {
    QuotientRemainder(chunk - 1, 0, chunk, chunk - 1);
  }

  lemma UnsignedLength(measured: int)
    requires -1 <= measured < 0x8000_0000_0000_0000
    ensures Wrap64(measured) == if measured < 0 then TWO_TO_THE_64 - 1 else measured
  {
  }

  /** The 64-bit count of chunks is exact for a measured length, and 0 for a failed measurement. */
  lemma ChunkCount(measured: int, chunk: nat)
    requires -1 <= measured < 0x8000_0000_0000_0000 && 2 <= chunk < 0x8000_0000
    ensures Wrap64(Wrap64(measured) + chunk - 1) / chunk == if measured < 0 then 0 else ChunksFor(measured, chunk)
  {
    if measured < 0 {
      assert Wrap64(Wrap64(measured) + chunk - 1) == chunk - 2;
      QuotientRemainder(chunk - 2, 0, chunk, chunk - 2);
    } else {
      assert Wrap64(measured) == measured;
    }
  }

  lemma OneChunkLess(n: nat, chunk: nat)
    requires chunk > 0 && n > 0
    ensures ChunksFor(n, chunk) == 1 + ChunksFor(n - Min(chunk, n), chunk)
  {
    var rest := n - Min(chunk, n);
    var q, r := ChunksFor(rest, chunk), (rest + chunk - 1) % chunk;
    if n <= chunk {
      NoChunks(chunk);
      QuotientRemainder(n + chunk - 1, 1, chunk, n - 1);
    } else {
      QuotientRemainder(n + chunk - 1, q + 1, chunk, r);
    }
  }

  // ----- What the receiver can make of the parts -----

  /** The decoded parts one after the other, as the receiver joins them by number. */
  function Joined(parts: seq<Part>): seq<Byte> {
    if parts == [] then []
    else (if Decode(parts[0].data).Bytes? then Decode(parts[0].data).bytes else []) + Joined(parts[1..])
  }

  /** Numbered consecutively, with the flag on the part that is last by the announced count and on no other. */
  ghost predicate Numbered(parts: seq<Part>, index: nat, total: nat) {
    forall k: nat | k < |parts| ::
      parts[k].index == index + k && parts[k].total == total && (parts[k].final <==> index + k + 1 == total)
  }

  lemma {:induction false} PartsReassemble(content: seq<Byte>, at: nat, index: nat, total: nat, chunk: nat)
    requires at <= |content| && chunk > 0 && index <= total
    ensures var parts := PartsFrom(content, at, index, total, chunk);
      Numbered(parts, index, total) &&
      |parts| == Min(ChunksFor(|content| - at, chunk), total - index) &&
      Joined(parts) <= content[at..] &&
      (Joined(parts) == content[at..] <==> ChunksFor(|content| - at, chunk) <= total - index)
    decreases |content| - at
  {
    hide ChunksFor, Encode, Decode;
    NoChunks(chunk);
    if at < |content| {
      OneChunkLess(|content| - at, chunk);
      if index < total {
        var next := Min(at + chunk, |content|);
        var parts, rest := PartsFrom(content, at, index, total, chunk), PartsFrom(content, next, index + 1, total, chunk);
        PartsReassemble(content, next, index + 1, total, chunk);
        RoundTrip(content[at..next], false);
        assert parts[1..] == rest;
        assert Joined(parts) == content[at..next] + Joined(rest);
        assert content[at..] == content[at..next] + content[next..];
      }
    }
  }

  /** A file that did not change while it was read: the parts join to exactly the file, and the flag is set on exactly
      the last part sent. An empty file sends nothing. */
  lemma {:induction false} UploadIsFaithful(content: seq<Byte>, chunk: nat)
    requires chunk > 0
    ensures var parts := PartsFrom(content, 0, 0, ChunksFor(|content|, chunk), chunk);
      Joined(parts) == content && |parts| == ChunksFor(|content|, chunk) &&
      (parts == [] <==> content == []) &&
      forall k: nat | k < |parts| :: parts[k].index == k && (parts[k].final <==> k == |parts| - 1)
  {
    hide PartsFrom, Encode, Decode;
    PartsReassemble(content, 0, 0, ChunksFor(|content|, chunk), chunk);
    NoChunks(chunk);
    if content != [] {
      OneChunkLess(|content|, chunk);
    }
  }

  /** A file that did change: the last part is announced exactly if the file still fills as many chunks as measured, and
      nothing is missing exactly if it fills no more. */
  lemma {:induction false} ChangedFile(content: seq<Byte>, size: nat, chunk: nat)
    requires chunk > 0 && size > 0
    ensures var total := ChunksFor(size, chunk);
      var parts := PartsFrom(content, 0, 0, total, chunk);
      ((exists k: nat :: k < |parts| && parts[k].final) <==> ChunksFor(|content|, chunk) >= total) &&
      (Joined(parts) == content <==> ChunksFor(|content|, chunk) <= total)
  {
    hide PartsFrom, Encode, Decode, ChunksFor;
    var total := ChunksFor(size, chunk);
    var parts := PartsFrom(content, 0, 0, total, chunk);
    PartsReassemble(content, 0, 0, total, chunk);
    OneChunkLess(size, chunk);
    assert content[0..] == content;
    if |parts| == total {
      assert parts[total - 1].final;
    }
  }
}
