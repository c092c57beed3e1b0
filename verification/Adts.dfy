/** ADTS framing of AAC samples (`adtsHeader`, `adtsParams` in web/src/extractAudio.ts), and a
    decoder for it written from section 6.2 of ISO/IEC 13818-7, field by field, to check it against.
    Where the source joins bit fields with `|`, they are added here; `FieldsDoNotOverlap` says why
    that is the same. */
module Adts {
  import opened Options
  import opened Bytes

  datatype Params = Params(profile: int, freq: int, channels: int)

  /** What an ADTS header has room and a meaning for. */
  predicate Carried(p: Params) { 0 <= p.profile <= 3 && 0 <= p.freq <= 12 && 1 <= p.channels <= 7 }

  const MAX_FRAME := 0x1fff
  const MAX_SAMPLE := MAX_FRAME - 7

  /** Fields of an AudioSpecificConfig: 5 bits of object type, 4 of frequency index, 4 of channels
      (section 1.6.2.1 of ISO/IEC 14496-3). */
  function ObjectType(asc: seq<byte>): int requires |asc| >= 2 { asc[0] / 8 }
  function FreqIndex(asc: seq<byte>): int requires |asc| >= 2 { (asc[0] % 8) * 2 + asc[1] / 128 }
  function ChannelConfig(asc: seq<byte>): int requires |asc| >= 2 { asc[1] / 8 % 16 }

  function AdtsParams(asc: seq<byte>): Option<Params> {
    if |asc| < 2 then None
    else
      var objectType := ObjectType(asc);
      var profile := if objectType == 5 || objectType == 29 then 1 else objectType - 1;
      var p := Params(profile, FreqIndex(asc), ChannelConfig(asc));
      if profile < 0 || profile > 3 || p.freq > 12 || p.channels < 1 || p.channels > 7 then None else Some(p)
  }

  /** Exactly the configurations ADTS can carry are accepted: AAC Main, LC, SSR and LTP, and the two
      HE-AAC types, which ride on LC, with an indexed rate and a numbered channel layout. */
  lemma ParamsAccepted(asc: seq<byte>)
    ensures AdtsParams(asc).Some? <==>
      |asc| >= 2 && ObjectType(asc) in {1, 2, 3, 4, 5, 29} && FreqIndex(asc) <= 12 && 1 <= ChannelConfig(asc) <= 7
    ensures AdtsParams(asc).Some? ==> Carried(AdtsParams(asc).value)
  {
  }

  /** A configuration as the standard writes it: object type, frequency index and channel
      configuration in 5, 4 and 4 bits, then three more bits and whatever follows. */
  function Config(objectType: int, freq: int, channels: int, more: int, rest: seq<byte>): (r: seq<byte>)
    requires 0 <= objectType < 32 && 0 <= freq < 16 && 0 <= channels < 16 && 0 <= more < 8
  {
    [objectType * 8 + freq / 2, freq % 2 * 128 + channels * 8 + more] + rest
  }

  /** The parameters read are those written. */
  lemma ParamsReadBack(objectType: int, freq: int, channels: int, more: int, rest: seq<byte>)
    requires 0 <= objectType < 32 && 0 <= freq < 16 && 0 <= channels < 16 && 0 <= more < 8
    ensures var p := AdtsParams(Config(objectType, freq, channels, more, rest));
      if objectType in {1, 2, 3, 4} && freq <= 12 && 1 <= channels <= 7 then p == Some(Params(objectType - 1, freq, channels))
      else if objectType in {5, 29} && freq <= 12 && 1 <= channels <= 7 then p == Some(Params(1, freq, channels))
      else p == None
  {
    var asc := Config(objectType, freq, channels, more, rest);
    FieldsBack(asc, objectType, freq, channels, more);
    hide Config, ObjectType, FreqIndex, ChannelConfig;
  }

  lemma FieldsBack(asc: seq<byte>, objectType: int, freq: int, channels: int, more: int)
    requires 0 <= objectType < 32 && 0 <= freq < 16 && 0 <= channels < 16 && 0 <= more < 8
    requires |asc| >= 2 && asc[0] == objectType * 8 + freq / 2 && asc[1] == freq % 2 * 128 + channels * 8 + more
    ensures ObjectType(asc) == objectType && FreqIndex(asc) == freq && ChannelConfig(asc) == channels
  {
    assert asc[1] / 8 == freq % 2 * 16 + channels;
  }

  /** The seven bytes before a sample, or None where the source throws. */
  function Header(p: Params, size: nat): (h: Option<seq<byte>>)
    requires Carried(p)
    ensures h.Some? <==> size <= MAX_SAMPLE
    ensures h.Some? ==> |h.value| == 7
  {
    var len := size + 7;
    if len > MAX_FRAME then None
    else Some([0xff, 0xf1,
      p.profile * 64 + p.freq * 4 + p.channels / 4,
      (p.channels % 4) * 64 + len / 2048,
      len / 8 % 256,
      (len % 8) * 32 + 0x1f,
      0xfc])
  }

  lemma FieldsDoNotOverlap(profile: bv16, freq: bv16, channels: bv16, len: bv16)
    requires profile <= 3 && freq <= 12 && channels <= 7 && len <= 0x1fff
    ensures (profile << 6) | (freq << 2) | (channels >> 2) == profile * 64 + freq * 4 + channels / 4
    ensures ((channels & 3) << 6) | (len >> 11) == (channels % 4) * 64 + len / 2048
    ensures (len >> 3) & 0xff == len / 8 % 256
    ensures ((len & 7) << 5) | 0x1f == (len % 8) * 32 + 0x1f
  {
  }

  // ---- a decoder, from the standard ------------------------------------------------------

  /** One frame as decoded: its parameters and its payload, and what follows it. */
  datatype Decoded = Decoded(p: Params, sample: seq<byte>, rest: seq<byte>)

  datatype Fields = Fields(sync: int, layer: int, noChecksum: int, p: Params, length: int, blocks: int)

  /** Byte by byte, highest bit first: syncword 8; syncword 4, ID 1, layer 2, protection_absent 1;
      profile 2, sampling_frequency_index 4, private_bit 1, channel_configuration 1; its other 2,
      original, home and two copyright bits, frame length 2; frame length 8; frame length 3, buffer
      fullness 5; buffer fullness 6, number_of_raw_data_blocks 2. */
  function FieldsOf(a: int, b: int, c: int, d: int, e: int, f: int, g: int): Fields {
    Fields(a * 16 + b / 16, b / 2 % 4, b % 2, Params(c / 64, c / 4 % 16, c % 2 * 4 + d / 64),
           d % 4 * 2048 + e * 8 + f / 32, g % 4)
  }

  /** The fields of a seven-byte header. */
  function ReadFields(h: seq<byte>): Fields {
    if |h| != 7 then Fields(0, 0, 0, Params(0, 0, 0), 0, 0) else FieldsOf(h[0], h[1], h[2], h[3], h[4], h[5], h[6])
  }

  /** One frame, with any reader of header fields. Frames with a checksum or with several raw data
      blocks are not decoded. */
  function DecodeFrame(read: seq<byte> -> Fields, s: seq<byte>): (d: Option<Decoded>)
    ensures d.Some? ==> |d.value.rest| < |s|
  {
    if |s| < 7 then None
    else
      var f := read(s[..7]);
      if f.sync != 0xfff || f.layer != 0 || f.noChecksum != 1 || f.blocks != 0 || f.length < 7 || f.length > |s| then None
      else Some(Decoded(f.p, s[7..f.length], s[f.length..]))
  }

  /** All frames of a stream, or None at anything that is not a frame. */
  function DecodeStream(read: seq<byte> -> Fields, s: seq<byte>): Option<seq<(Params, seq<byte>)>>
    decreases |s|
  {
    if s == [] then Some([])
    else
      var d := DecodeFrame(read, s);
      if d.None? then None
      else
        var more := DecodeStream(read, d.value.rest);
        if more.None? then None else Some([(d.value.p, d.value.sample)] + more.value)
  }

  // ---- framing is uniquely decodable -----------------------------------------------------

  /** The header's bytes, with the two fields that straddle bytes taken apart. */
  lemma HeaderBytes(p: Params, size: nat) returns (hi: int, lo: int, a: int, b: int, c: int)
    requires Carried(p) && size <= MAX_SAMPLE
    ensures 0 <= hi < 2 && 0 <= lo < 4 && 0 <= a < 4 && 0 <= b < 256 && 0 <= c < 8
    ensures p.channels == 4 * hi + lo && size + 7 == 2048 * a + 8 * b + c
    ensures Header(p, size).value ==
      [0xff, 0xf1, p.profile * 64 + p.freq * 4 + hi, lo * 64 + a, b, c * 32 + 0x1f, 0xfc]
  {
    hi, lo, a, b, c := p.channels / 4, p.channels % 4, (size + 7) / 2048, (size + 7) / 8 % 256, (size + 7) % 8;
  }

  /** The reader sees in every header the parameters and the length it was made for. */
  ghost predicate ReadsHeaders(read: seq<byte> -> Fields) {
    forall p: Params, size: nat :: Carried(p) && size <= MAX_SAMPLE ==>
      read(Header(p, size).value) == Fields(0xfff, 0, 1, p, size + 7, 0)
  }

  /** The standard's fields do. */
  lemma HeadersRead()
    ensures ReadsHeaders(ReadFields)
  {
    hide Header, ReadFields;
    forall p: Params, size: nat | Carried(p) && size <= MAX_SAMPLE
      ensures ReadFields(Header(p, size).value) == Fields(0xfff, 0, 1, p, size + 7, 0)
    {
      HeaderReads(p, size);
    }
  }

  lemma HeaderReads(p: Params, size: nat)
    requires Carried(p) && size <= MAX_SAMPLE
    ensures ReadFields(Header(p, size).value) == Fields(0xfff, 0, 1, p, size + 7, 0)
  {
    hide Header, FieldsOf;
    var hi, lo, a, b, c := HeaderBytes(p, size);
    FieldsJoined(p.profile, p.freq, hi, lo, a, b, c);
  }

  lemma FieldsJoined(profile: int, freq: int, hi: int, lo: int, a: int, b: int, c: int)
    requires 0 <= profile < 4 && 0 <= freq < 16 && 0 <= hi < 2 && 0 <= lo < 4 && 0 <= a < 4 && 0 <= b < 256 && 0 <= c < 8
    ensures FieldsOf(0xff, 0xf1, profile * 64 + freq * 4 + hi, lo * 64 + a, b, c * 32 + 0x1f, 0xfc) ==
      Fields(0xfff, 0, 1, Params(profile, freq, 4 * hi + lo), 2048 * a + 8 * b + c, 0)
  {
    var x, y := profile * 64 + freq * 4 + hi, lo * 64 + a;
    assert x / 64 == profile && x / 4 == profile * 16 + freq && x % 2 == hi;
    assert y / 64 == lo && y % 4 == a && (c * 32 + 0x1f) / 32 == c;
  }

  /** One framed sample, decoded, is that sample with its parameters. */
  lemma DecodeOne(read: seq<byte> -> Fields, p: Params, sample: seq<byte>, rest: seq<byte>)
    requires ReadsHeaders(read) && Carried(p) && |sample| <= MAX_SAMPLE
    ensures DecodeFrame(read, Header(p, |sample|).value + sample + rest) == Some(Decoded(p, sample, rest))
  {
    hide Header;
    var h := Header(p, |sample|).value;
    var s := h + sample + rest;
    assert s[..7] == h;
    assert s[7..|sample| + 7] == sample && s[|sample| + 7..] == rest;
  }

  ghost predicate Fit(samples: seq<seq<byte>>) { forall s :: s in samples ==> |s| <= MAX_SAMPLE }

  /** A stream of framed samples. */
  function Stream(p: Params, samples: seq<seq<byte>>): seq<byte>
    requires Carried(p)
  {
    if samples == [] then []
    else
      var h := Header(p, |samples[0]|);
      (if h.Some? then h.value else []) + samples[0] + Stream(p, samples[1..])
  }

  function Tagged(p: Params, samples: seq<seq<byte>>): (r: seq<(Params, seq<byte>)>)
    ensures |r| == |samples|
  {
    seq(|samples|, i requires 0 <= i < |samples| => (p, samples[i]))
  }

  lemma DecodeFirst(read: seq<byte> -> Fields, p: Params, sample: seq<byte>, rest: seq<byte>, more: seq<(Params, seq<byte>)>)
    requires ReadsHeaders(read) && Carried(p) && |sample| <= MAX_SAMPLE && DecodeStream(read, rest) == Some(more)
    ensures DecodeStream(read, Header(p, |sample|).value + sample + rest) == Some([(p, sample)] + more)
  {
    hide Header;
    DecodeOne(read, p, sample, rest);
    assert Header(p, |sample|).value + sample + rest != [];
  }

  /** Framing is uniquely decodable: a decoder that reads headers right gives back exactly the samples,
      each with the parameters. */
  lemma {:induction false} DecodeInvertsFraming(read: seq<byte> -> Fields, p: Params, samples: seq<seq<byte>>)
    requires ReadsHeaders(read) && Carried(p) && Fit(samples)
    ensures DecodeStream(read, Stream(p, samples)) == Some(Tagged(p, samples))
  {
    hide Header, ReadsHeaders;
    if samples != [] {
      assert samples[0] in samples && forall s :: s in samples[1..] ==> s in samples;
      DecodeInvertsFraming(read, p, samples[1..]);
      DecodeFirst(read, p, samples[0], Stream(p, samples[1..]), Tagged(p, samples[1..]));
      assert Tagged(p, samples) == [(p, samples[0])] + Tagged(p, samples[1..]);
    } else {
      assert Tagged(p, samples) == [];
    }
  }

  lemma {:induction false} StreamAppend(p: Params, a: seq<seq<byte>>, b: seq<seq<byte>>)
    requires Carried(p)
    ensures Stream(p, a + b) == Stream(p, a) + Stream(p, b)
  {
    if a == [] {
      assert a + b == b;
    } else {
      assert (a + b)[1..] == a[1..] + b;
      StreamAppend(p, a[1..], b);
    }
  }

  /** The longest sample is what 13 bits of frame length leave beside the header. */
  lemma LongestSample(p: Params, size: nat)
    requires Carried(p)
    ensures Header(p, size).Some? <==> 7 + size < 0x2000
  {
  }
}
