/** The binary audio frame of the wire protocol (server/src/jarvis_live/protocol.py). */
module Frames {
  import opened Bytes

  const VERSION := 1
  const HEADER_SIZE := 12
  const BYTES_PER_MS := 32
  const MIN_PAYLOAD := 20 * BYTES_PER_MS
  const MAX_PAYLOAD := 200 * BYTES_PER_MS

  datatype FrameError = InvalidChannel | OddPayload | PayloadSize | HeaderRange | TooShort | BadVersion | BadFlags
  datatype Result<T> = Ok(value: T) | Err(error: FrameError)
  datatype Frame = Frame(channel: int, seqNo: int, tMs: int, pcm: seq<byte>)

  predicate GoodPayload(pcm: seq<byte>) { |pcm| % 2 == 0 && MIN_PAYLOAD <= |pcm| <= MAX_PAYLOAD }

  function EncodeFrame(channel: int, seqNo: int, tMs: int, pcm: seq<byte>): Result<seq<byte>> {
    if channel != 0 && channel != 1 then Err(InvalidChannel)
    else if |pcm| % 2 != 0 then Err(OddPayload)
    else if !GoodPayload(pcm) then Err(PayloadSize)
    else if !(0 <= seqNo < 0x1_0000_0000 && 0 <= tMs < 0x1_0000_0000) then Err(HeaderRange)
    else Ok([VERSION, channel] + LittleEndian2(0) + LittleEndian4(seqNo) + LittleEndian4(tMs) + pcm)
  }

  function DecodeFrame(data: seq<byte>): Result<Frame> {
    if |data| < HEADER_SIZE then Err(TooShort)
    else if data[0] != VERSION then Err(BadVersion)
    else if data[1] != 0 && data[1] != 1 then Err(InvalidChannel)
    else if FromLittleEndian2(data[2..4]) != 0 then Err(BadFlags)
    else
      var pcm := data[HEADER_SIZE..];
      if |pcm| % 2 != 0 then Err(OddPayload)
      else if !GoodPayload(pcm) then Err(PayloadSize)
      else Ok(Frame(data[1], FromLittleEndian4(data[4..8]), FromLittleEndian4(data[8..12]), pcm))
  }

  /** Decoding an encoded frame returns what went in. */
  lemma DecodeInvertsEncode(channel: int, seqNo: int, tMs: int, pcm: seq<byte>)
    requires EncodeFrame(channel, seqNo, tMs, pcm).Ok?
    ensures DecodeFrame(EncodeFrame(channel, seqNo, tMs, pcm).value) == Ok(Frame(channel, seqNo, tMs, pcm))
  {
    var data := EncodeFrame(channel, seqNo, tMs, pcm).value;
    LittleEndianInverse(0, seqNo);
    LittleEndianInverse(0, tMs);
    assert data[2..4] == LittleEndian2(0);
    assert data[4..8] == LittleEndian4(seqNo);
    assert data[8..12] == LittleEndian4(tMs);
    assert data[12..] == pcm;
  }

  /** And encoding a decoded frame returns the bytes it came from. */
  lemma EncodeInvertsDecode(data: seq<byte>)
    requires DecodeFrame(data).Ok?
    ensures var f := DecodeFrame(data).value; EncodeFrame(f.channel, f.seqNo, f.tMs, f.pcm) == Ok(data)
  {
    var f := DecodeFrame(data).value;
    LittleEndianInverse(0, 0);
    assert data == data[..2] + data[2..4] + data[4..8] + data[8..12] + data[12..];
    assert data[..2] == [data[0], data[1]];
  }

  /** `decode_frame` accepts exactly the byte strings `encode_frame` can produce. */
  lemma AcceptsExactlyEncodings(data: seq<byte>)
    ensures DecodeFrame(data).Ok? <==>
      exists channel, seqNo, tMs, pcm :: EncodeFrame(channel, seqNo, tMs, pcm) == Ok(data)
  {
    if DecodeFrame(data).Ok? {
      EncodeInvertsDecode(data);
    }
    if channel, seqNo, tMs, pcm :| EncodeFrame(channel, seqNo, tMs, pcm) == Ok(data) {
      DecodeInvertsEncode(channel, seqNo, tMs, pcm);
    }
  }

  // ---- split_frames ----------------------------------------------------------------------

  function Chunks(pcm: seq<byte>, size: int): (r: seq<seq<byte>>)
    requires size > 0
    decreases |pcm|
  {
    if pcm == [] then []
    else if |pcm| <= size then [pcm]
    else [pcm[..size]] + Chunks(pcm[size..], size)
  }

  function PadLast(chunks: seq<seq<byte>>): seq<seq<byte>> {
    if chunks != [] && |chunks[|chunks| - 1]| < MIN_PAYLOAD then
      var last := chunks[|chunks| - 1];
      chunks[|chunks| - 1 := last + Zeros(MIN_PAYLOAD - |last|)]
    else chunks
  }

  function Split(pcm: seq<byte>, frameMs: int): seq<seq<byte>>
    requires frameMs > 0
  {
    PadLast(Chunks(pcm, frameMs * BYTES_PER_MS))
  }

  /** Cutting `n` whole chunks off the front leaves the rest to be cut on its own. */
  lemma {:induction false} ChunksAt(done: seq<byte>, rest: seq<byte>, size: int, n: nat)
    requires size > 0 && |done| == n * size
    ensures Chunks(done + rest, size) == Chunks(done, size) + Chunks(rest, size)
    decreases n
  {
    if n == 0 {
      assert done == [] && done + rest == rest;
    } else {
      hide Chunks;
      OneLess(n, size);
      ChunksAt(done[size..], rest, size, n - 1);
      ChunksFirst(done, size);
      ChunksFirst(done + rest, size);
      assert (done + rest)[..size] == done[..size] && (done + rest)[size..] == done[size..] + rest;
      assert [done[..size]] + Chunks(done[size..], size) + Chunks(rest, size) ==
        [done[..size]] + (Chunks(done[size..], size) + Chunks(rest, size));
    }
  }

  lemma OneLess(n: nat, size: int)
    requires n > 0 && size > 0
    ensures n * size == (n - 1) * size + size && (n - 1) * size >= 0
  {
  }

  lemma ChunksFirst(pcm: seq<byte>, size: int)
    requires 0 < size <= |pcm|
    ensures Chunks(pcm, size) == [pcm[..size]] + Chunks(pcm[size..], size)
  {
    if |pcm| == size {
      assert pcm[..size] == pcm && pcm[size..] == [];
    }
  }

  /** `split_frames` as the source writes it: slices at every `size`, the last one padded in place. */
  method SplitFrames(pcm: seq<byte>, frameMs: int) returns (frames: seq<seq<byte>>)
    requires frameMs > 0
    ensures frames == Split(pcm, frameMs)
  {
    var size := frameMs * BYTES_PER_MS;
    frames := [];
    var i := 0;
    ghost var n := 0;
    while i < |pcm|
      invariant i == n * size && 0 <= i
      invariant frames == Chunks(pcm[..Min(i, |pcm|)], size)
    {
      var end := Min(i + size, |pcm|);
      var chunk := pcm[i..end];
      assert pcm[..end] == pcm[..i] + chunk;
      ChunksAt(pcm[..i], chunk, size, n);
      frames := frames + [chunk];
      i := i + size;
      n := n + 1;
    }
    assert pcm[..|pcm|] == pcm;
    if frames != [] && |frames[|frames| - 1]| < MIN_PAYLOAD {
      frames := frames[|frames| - 1 := frames[|frames| - 1] + Zeros(MIN_PAYLOAD - |frames[|frames| - 1]|)];
    }
  }

  function Min(a: int, b: int): int { if a < b then a else b }

  lemma ConcatOne(part: seq<byte>)
    ensures Concat([part]) == part
  {
    assert [part][..0] == [] && [] + part == part;
  }

  lemma {:induction false} ChunksConcat(pcm: seq<byte>, size: int)
    requires size > 0
    ensures Concat(Chunks(pcm, size)) == pcm
    decreases |pcm|
  {
    if pcm == [] {
    } else if |pcm| <= size {
      assert [pcm][..0] == [];
      assert Concat([pcm]) == [] + pcm;
    } else {
      ChunksConcat(pcm[size..], size);
      ConcatAppend([pcm[..size]], Chunks(pcm[size..], size));
      ConcatOne(pcm[..size]);
      hide Concat;
      assert pcm == pcm[..size] + pcm[size..];
    }
  }

  /** The frames, put together, are the audio and fewer than 20 ms of zeros. */
  lemma SplitKeepsAudio(pcm: seq<byte>, frameMs: int) returns (pad: nat)
    requires frameMs > 0
    ensures pad < MIN_PAYLOAD && Concat(Split(pcm, frameMs)) == pcm + Zeros(pad)
  {
    var chunks := Chunks(pcm, frameMs * BYTES_PER_MS);
    ChunksConcat(pcm, frameMs * BYTES_PER_MS);
    ChunkSizes(pcm, frameMs * BYTES_PER_MS);
    if chunks != [] && |chunks[|chunks| - 1]| < MIN_PAYLOAD {
      var last := chunks[|chunks| - 1];
      pad := MIN_PAYLOAD - |last|;
      assert Split(pcm, frameMs)[..|chunks| - 1] == chunks[..|chunks| - 1];
      assert Concat(chunks[..|chunks| - 1]) + (last + Zeros(pad)) == (Concat(chunks[..|chunks| - 1]) + last) + Zeros(pad);
    } else {
      pad := 0;
      assert pcm + Zeros(0) == pcm;
    }
  }

  lemma {:induction false} ChunkSizes(pcm: seq<byte>, size: int)
    requires size > 0
    ensures var c := Chunks(pcm, size);
      && (forall i :: 0 <= i < |c| - 1 ==> |c[i]| == size)
      && (c != [] ==> 0 < |c[|c| - 1]| <= size)
    decreases |pcm|
  {
    if |pcm| <= size {
    } else {
      ChunkSizes(pcm[size..], size);
    }
  }

  lemma {:induction false} ChunksEven(pcm: seq<byte>, size: int, i: nat)
    requires size > 0 && size % 2 == 0 && |pcm| % 2 == 0 && i < |Chunks(pcm, size)|
    ensures |Chunks(pcm, size)[i]| % 2 == 0
    decreases |pcm|
  {
    if |pcm| > size && i > 0 {
      ChunksEven(pcm[size..], size, i - 1);
    }
  }

  /** Every frame of even-length audio cut at 20 to 200 ms can be sent. */
  lemma SplitIsSendable(pcm: seq<byte>, frameMs: int, i: nat, channel: int)
    requires |pcm| % 2 == 0 && 20 <= frameMs <= 200 && (channel == 0 || channel == 1)
    requires i < |Split(pcm, frameMs)| && i * frameMs < 0x1_0000_0000
    ensures GoodPayload(Split(pcm, frameMs)[i])
    ensures EncodeFrame(channel, i, i * frameMs, Split(pcm, frameMs)[i]).Ok?
  {
    hide Chunks, LittleEndian2, LittleEndian4;
    var size := frameMs * BYTES_PER_MS;
    ChunkSizes(pcm, size);
    ChunksEven(pcm, size, i);
    NoLater(i, frameMs);
  }

  lemma NoLater(i: nat, frameMs: int)
    requires frameMs >= 1
    ensures i <= i * frameMs
  {
  }

  function Word(a: byte, b: byte, c: byte, d: byte): int { a + 0x100 * b + 0x1_0000 * c + 0x100_0000 * d }

  /** What can be sent, and how it lies on the wire: version, channel, two zero bytes, number and time
      with the lowest byte first, and the samples. */
  lemma FrameLayout(channel: int, seqNo: int, tMs: int, pcm: seq<byte>)
    ensures EncodeFrame(channel, seqNo, tMs, pcm).Ok? <==>
      && channel in {0, 1} && |pcm| % 2 == 0 && 640 <= |pcm| <= 6400
      && 0 <= seqNo < 0x1_0000_0000 && 0 <= tMs < 0x1_0000_0000
    ensures EncodeFrame(channel, seqNo, tMs, pcm).Ok? ==>
      var d := EncodeFrame(channel, seqNo, tMs, pcm).value;
      && |d| == 12 + |pcm| && d[0] == 1 && d[1] == channel && d[2] == 0 && d[3] == 0
      && Word(d[4], d[5], d[6], d[7]) == seqNo && Word(d[8], d[9], d[10], d[11]) == tMs && d[12..] == pcm
  {
    if EncodeFrame(channel, seqNo, tMs, pcm).Ok? {
      var d := EncodeFrame(channel, seqNo, tMs, pcm).value;
      assert d[4..8] == LittleEndian4(seqNo) && d[8..12] == LittleEndian4(tMs) && d[12..] == pcm;
      WordOf(seqNo);
      WordOf(tMs);
    }
  }

  lemma WordOf(n: int)
    requires 0 <= n < 0x1_0000_0000
    ensures var b := LittleEndian4(n); |b| == 4 && Word(b[0], b[1], b[2], b[3]) == n
  {
  }

  /** Every frame but the last is exactly `frameMs` of 16 kHz samples, the last at least 20 ms of them. */
  lemma SplitSizes(pcm: seq<byte>, frameMs: int, i: nat)
    requires frameMs > 0 && i < |Split(pcm, frameMs)|
    ensures i < |Split(pcm, frameMs)| - 1 ==> |Split(pcm, frameMs)[i]| == frameMs * 16 * 2
    ensures i == |Split(pcm, frameMs)| - 1 ==> 20 * 16 * 2 <= |Split(pcm, frameMs)[i]|
  {
    ChunkSizes(pcm, frameMs * BYTES_PER_MS);
    hide Chunks;
  }
}
