/** From a regular MP4's tables and bytes to the audio stream (`frame` and `extractAudio` in
    web/src/extractAudio.ts), and what a decoder of that stream gets. */
module Extract {
  import opened Options
  import opened Bytes
  import opened SampleTable
  import opened Adts

  /** The bytes of one sample in the file. */
  function Clip(file: seq<byte>, place: (int, nat)): seq<byte> {
    if place.1 == 0 || place.0 < 0 || place.0 + place.1 > |file| then [] else file[place.0..place.0 + place.1]
  }

  function Clips(file: seq<byte>, places: seq<(int, nat)>): (r: seq<seq<byte>>)
    ensures |r| == |places|
  {
    seq(|places|, i requires 0 <= i < |places| => Clip(file, places[i]))
  }

  /** The samples of a run, cut from its bytes. */
  function Cut(buf: seq<byte>, sizes: seq<nat>): seq<seq<byte>>
    requires Sum(sizes) <= |buf|
  {
    if sizes == [] then []
    else
      var init := sizes[..|sizes| - 1];
      Cut(buf, init) + [buf[Sum(init)..Sum(sizes)]]
  }

  ghost predicate Framable(adts: Option<Params>, sizes: seq<nat>) {
    adts.Some? ==> forall i :: 0 <= i < |sizes| ==> sizes[i] <= MAX_SAMPLE
  }

  /** A sample behind its ADTS header for AAC, bare for MP3. */
  function Piece(adts: Option<Params>, s: seq<byte>): seq<byte>
    requires adts.Some? ==> Carried(adts.value)
  {
    if adts.Some? && |s| <= MAX_SAMPLE then Header(adts.value, |s|).value + s else s
  }

  /** The samples one after the other. */
  function Framed(adts: Option<Params>, samples: seq<seq<byte>>): seq<byte>
    requires adts.Some? ==> Carried(adts.value)
  {
    if samples == [] then [] else Framed(adts, samples[..|samples| - 1]) + Piece(adts, samples[|samples| - 1])
  }

  lemma {:induction false} FramedAac(p: Params, samples: seq<seq<byte>>)
    requires Carried(p)
    ensures Framed(Some(p), samples) == Stream(p, samples)
  {
    if samples == [] {
    } else {
      var init, last := samples[..|samples| - 1], samples[|samples| - 1];
      FramedAac(p, init);
      StreamAppend(p, init, [last]);
      assert init + [last] == samples;
      var none: seq<seq<byte>> := [last][1..];
      assert Stream(p, [last]) == Piece(Some(p), last) + Stream(p, none);
    }
  }

  lemma {:induction false} FramedMp3(samples: seq<seq<byte>>)
    ensures Framed(None, samples) == Concat(samples)
  {
    if samples == [] {
    } else {
      FramedMp3(samples[..|samples| - 1]);
    }
  }

  lemma SumSnoc(done: seq<nat>, size: nat)
    ensures Sum(done + [size]) == Sum(done) + size
  {
    assert (done + [size])[..|done|] == done;
  }

  lemma CutSnoc(buf: seq<byte>, done: seq<nat>, size: nat)
    requires Sum(done) + size <= |buf|
    ensures Sum(done + [size]) == Sum(done) + size
    ensures Cut(buf, done + [size]) == Cut(buf, done) + [buf[Sum(done)..Sum(done) + size]]
  {
    hide Cut, Sum;
    SumSnoc(done, size);
    CutLast(buf, done + [size]);
    assert (done + [size])[..|done|] == done;
  }

  lemma CutLast(buf: seq<byte>, sizes: seq<nat>)
    requires sizes != [] && Sum(sizes) <= |buf|
    ensures var init := sizes[..|sizes| - 1];
      Sum(init) <= Sum(sizes) && Cut(buf, sizes) == Cut(buf, init) + [buf[Sum(init)..Sum(sizes)]]
  {
  }

  /** What the buffer holds once the samples of `sizes` are in it. */
  ghost predicate Written(text: seq<byte>, adts: Option<Params>, buf: seq<byte>, sizes: seq<nat>)
    requires Sum(sizes) <= |buf| && (adts.Some? ==> Carried(adts.value))
  {
    Framable(adts, sizes) && text == Framed(adts, Cut(buf, sizes))
  }

  lemma WrittenNone(adts: Option<Params>, buf: seq<byte>)
    requires adts.Some? ==> Carried(adts.value)
    ensures Sum([]) == 0 && Written([], adts, buf, [])
  {
  }

  lemma WrittenAll(text: seq<byte>, adts: Option<Params>, buf: seq<byte>, sizes: seq<nat>)
    requires Sum(sizes) <= |buf| && (adts.Some? ==> Carried(adts.value)) && Written(text, adts, buf, sizes)
    ensures Framable(adts, sizes) && text == Framed(adts, Cut(buf, sizes))
  {
  }

  lemma WrittenNext(text: seq<byte>, adts: Option<Params>, buf: seq<byte>, done: seq<nat>, size: nat)
    requires Sum(done) + size <= |buf| && (adts.Some? ==> Carried(adts.value) && size <= MAX_SAMPLE)
    requires Written(text, adts, buf, done)
    ensures Sum(done + [size]) == Sum(done) + size
    ensures Written(text + Piece(adts, buf[Sum(done)..Sum(done) + size]), adts, buf, done + [size])
  {
    hide Cut, Piece;
    CutSnoc(buf, done, size);
    var cut := Cut(buf, done);
    var slice := buf[Sum(done)..Sum(done) + size];
    assert (cut + [slice])[..|cut|] == cut;
  }

  lemma NextSize(sizes: seq<nat>, i: nat)
    requires i < |sizes|
    ensures sizes[..i + 1] == sizes[..i] + [sizes[i]]
    ensures Sum(sizes[..i]) + sizes[i] <= Sum(sizes)
  {
    SumAppend(sizes[..i] + [sizes[i]], sizes[i + 1..]);
    assert sizes == sizes[..i] + [sizes[i]] + sizes[i + 1..];
    assert (sizes[..i] + [sizes[i]])[..i] == sizes[..i];
  }

  /** `Uint8Array.prototype.set`. */
  method Set(out: array<byte>, piece: seq<byte>, at: nat)
    requires at + |piece| <= out.Length
    modifies out
    ensures out[..at + |piece|] == old(out[..at]) + piece
  {
    forall k | 0 <= k < |piece| {
      out[at + k] := piece[k];
    }
  }

  /** One turn of the loop in `frame`. */
  method PutSample(out: array<byte>, adts: Option<Params>, sample: seq<byte>, w: nat) returns (next: nat)
    requires adts.Some? ==> Carried(adts.value) && |sample| <= MAX_SAMPLE
    requires w + (if adts.Some? then 7 else 0) + |sample| <= out.Length
    modifies out
    ensures next == w + (if adts.Some? then 7 else 0) + |sample|
    ensures out[..next] == old(out[..w]) + Piece(adts, sample)
  {
    next := w;
    if adts.Some? {
      Set(out, Header(adts.value, |sample|).value, next);
      next := next + 7;
    }
    Set(out, sample, next);
    next := next + |sample|;
  }

  /** `frame`: fills a buffer of the size known beforehand. False where `adtsHeader` throws. */
  method FrameRun(adts: Option<Params>, run: Run, buf: seq<byte>) returns (out: array<byte>, ok: bool)
    requires TightRun(run) && run.length == |buf| && (adts.Some? ==> Carried(adts.value))
    ensures fresh(out)
    ensures ok <==> Framable(adts, run.sizes)
    ensures ok ==> out[..] == Framed(adts, Cut(buf, run.sizes))
  {
    hide Written, Framed, Cut, Sum, Piece;
    var sizes := run.sizes;
    WrittenNone(adts, buf);
    assert sizes[..0] == [];
    out := new byte[run.length + if adts.Some? then 7 * |sizes| else 0];
    var r: nat, w: nat := 0, 0;
    for i := 0 to |sizes|
      invariant r == Sum(sizes[..i]) <= |buf| && w == r + if adts.Some? then 7 * i else 0
      invariant w <= out.Length
      invariant Written(out[..w], adts, buf, sizes[..i])
    {
      var size := sizes[i];
      NextSize(sizes, i);
      if adts.Some? && size > MAX_SAMPLE {
        return out, false;
      }
      WrittenNext(out[..w], adts, buf, sizes[..i], size);
      w := PutSample(out, adts, buf[r..r + size], w);
      r := r + size;
    }
    assert sizes[..|sizes|] == sizes && out[..] == out[..w];
    WrittenAll(out[..w], adts, buf, sizes);
    ok := true;
  }

  // ---- extractAudio over a regular MP4 ---------------------------------------------------

  datatype Extraction = Audio(bytes: seq<byte>) | PastEnd | TooLarge | NoSamples

  /** `File.slice`: clamped to the file. */
  function FileSlice(file: seq<byte>, from: int, to: int): seq<byte>
    requires 0 <= from <= to
  {
    if from >= |file| then [] else if to > |file| then file[from..] else file[from..to]
  }

  /** A run's bytes are all in the file. */
  predicate Inside(file: seq<byte>, r: Run) { r.length == 0 || (r.offset >= 0 && r.offset + r.length <= |file|) }

  ghost predicate Readable(file: seq<byte>, adts: Option<Params>, r: Run) {
    Inside(file, r) && Framable(adts, r.sizes)
  }

  /** The text of the first runs, and what the next one adds. */
  ghost predicate Read(text: seq<byte>, file: seq<byte>, adts: Option<Params>, runs: seq<Run>)
    requires adts.Some? ==> Carried(adts.value)
  {
    text == Framed(adts, Clips(file, Flatten(runs))) && forall k :: 0 <= k < |runs| ==> Readable(file, adts, runs[k])
  }

  lemma ReadNone(file: seq<byte>, adts: Option<Params>)
    requires adts.Some? ==> Carried(adts.value)
    ensures Read([], file, adts, [])
  {
  }

  lemma ReadAll(text: seq<byte>, file: seq<byte>, adts: Option<Params>, runs: seq<Run>)
    requires (adts.Some? ==> Carried(adts.value)) && Read(text, file, adts, runs)
    ensures text == Framed(adts, Clips(file, Flatten(runs))) && forall k :: 0 <= k < |runs| ==> Readable(file, adts, runs[k])
  {
  }

  lemma ReadNext(text: seq<byte>, file: seq<byte>, adts: Option<Params>, runs: seq<Run>, run: Run)
    requires adts.Some? ==> Carried(adts.value)
    requires Read(text, file, adts, runs) && Readable(file, adts, run)
    ensures Read(text + Framed(adts, Clips(file, Places(run.offset, run.sizes))), file, adts, runs + [run])
  {
    FlattenSnoc(runs, run);
    MoreText(file, adts, Flatten(runs), Places(run.offset, run.sizes));
  }

  /** One turn of the reading loop: slice the run from the file and frame it. */
  method ReadRun(file: seq<byte>, adts: Option<Params>, run: Run) returns (r: Extraction)
    requires TightRun(run) && run.offset >= 0 && (adts.Some? ==> Carried(adts.value))
    ensures r.Audio? <==> Readable(file, adts, run)
    ensures r.Audio? ==> r.bytes == Framed(adts, Clips(file, Places(run.offset, run.sizes)))
    ensures !r.NoSamples?
  {
    var buf := FileSlice(file, run.offset, run.offset + run.length);
    if |buf| < run.length {
      return PastEnd;
    }
    RunText(file, adts, run);
    var out, ok := FrameRun(adts, run, buf);
    r := if ok then Audio(out[..]) else TooLarge;
  }

  /** The reading loop of `extractAudio` once the track is found. */
  method ExtractAudio(file: seq<byte>, t: Track, adts: Option<Params>) returns (r: Extraction)
    requires adts.Some? ==> Carried(adts.value)
    ensures r.Audio? <==> Runs(t) != [] && forall i :: 0 <= i < |Runs(t)| ==> Readable(file, adts, Runs(t)[i])
    ensures r.Audio? ==> r.bytes == Framed(adts, Clips(file, Flatten(Runs(t))))
    ensures r.NoSamples? <==> Runs(t) == []
  {
    hide Read, Readable, Framed, Clips, Runs, Flatten, Places;
    var runs := TableRuns(t);
    RunsFlat(t);
    RunOffsets(t);
    var parts: seq<byte> := [];
    ReadNone(file, adts);
    assert runs[..0] == [];
    for i := 0 to |runs|
      invariant Read(parts, file, adts, runs[..i])
    {
      assert runs[i] in runs && TightRun(runs[i]);
      var part := ReadRun(file, adts, runs[i]);
      if !part.Audio? {
        return part;
      }
      ReadNext(parts, file, adts, runs[..i], runs[i]);
      assert runs[..i + 1] == runs[..i] + [runs[i]];
      parts := parts + part.bytes;
    }
    assert runs[..|runs|] == runs;
    ReadAll(parts, file, adts, runs);
    r := if |runs| == 0 then NoSamples else Audio(parts);
  }

  lemma RunOffsets(t: Track)
    ensures forall r :: r in Runs(t) ==> r.offset >= 0 && r.length >= 0
  {
    var chunks := ChunkRuns(t, 0, 0);
    ChunkOffsets(t, 0, 0);
    if chunks != [] {
      assert chunks[0] in chunks && forall r :: r in chunks[1..] ==> r in chunks;
      CoalesceOffsets(chunks[0], chunks[1..]);
    }
  }

  lemma {:induction false} ChunkOffsets(t: Track, chunk: nat, sample: nat)
    ensures forall r :: r in ChunkRuns(t, chunk, sample) ==> r.offset >= 0 && r.length >= 0
    decreases |t.chunkOffsets| - chunk
  {
    if chunk < |t.chunkOffsets| && sample < |t.sizes| {
      ChunkOffsets(t, chunk + 1, sample + CountIn(t.stsc, chunk + 1, 0));
    }
  }

  lemma {:induction false} CoalesceOffsets(cur: Run, rest: seq<Run>)
    requires cur.offset >= 0 && cur.length >= 0 && forall r :: r in rest ==> r.offset >= 0 && r.length >= 0
    ensures forall r :: r in Coalesce(cur, rest) ==> r.offset >= 0 && r.length >= 0
    decreases |rest|
  {
    if rest == [] {
    } else {
      assert rest[0] in rest && forall r :: r in rest[1..] ==> r in rest;
      if Mergeable(cur, rest[0]) {
        CoalesceOffsets(Merge(cur, rest[0]), rest[1..]);
      } else {
        CoalesceOffsets(rest[0], rest[1..]);
      }
    }
  }

  lemma {:induction false} FramedAppend(adts: Option<Params>, a: seq<seq<byte>>, b: seq<seq<byte>>)
    requires adts.Some? ==> Carried(adts.value)
    ensures Framed(adts, a + b) == Framed(adts, a) + Framed(adts, b)
  {
    hide Piece;
    if b == [] {
      assert a + b == a;
    } else {
      assert (a + b)[..|a + b| - 1] == a + b[..|b| - 1];
      FramedAppend(adts, a, b[..|b| - 1]);
    }
  }

  lemma {:induction false} FlattenSnoc(runs: seq<Run>, r: Run)
    ensures Flatten(runs + [r]) == Flatten(runs) + Places(r.offset, r.sizes)
  {
    if runs == [] {
      assert runs + [r] == [r];
    } else {
      assert (runs + [r])[1..] == runs[1..] + [r];
      FlattenSnoc(runs[1..], r);
    }
  }

  lemma ClipsAppend(file: seq<byte>, a: seq<(int, nat)>, b: seq<(int, nat)>)
    ensures Clips(file, a + b) == Clips(file, a) + Clips(file, b)
  {
  }

  lemma CutOne(file: seq<byte>, offset: int, length: nat, from: nat, size: nat)
    requires 0 <= offset && from + size <= length && (length == 0 || offset + length <= |file|)
    ensures |FileSlice(file, offset, offset + length)| == length
    ensures FileSlice(file, offset, offset + length)[from..from + size] == Clip(file, (offset + from, size))
    ensures Clips(file, [(offset + from, size)]) == [Clip(file, (offset + from, size))]
  {
  }

  lemma SliceWhole(file: seq<byte>, offset: int, length: nat)
    requires 0 <= offset && (length == 0 || offset + length <= |file|)
    ensures |FileSlice(file, offset, offset + length)| == length
  {
  }

  /** Cutting a run's slice is clipping its samples from the file. */
  lemma {:induction false} CutIsClips(file: seq<byte>, offset: int, length: nat, sizes: seq<nat>)
    requires 0 <= offset && Sum(sizes) <= length && (length == 0 || offset + length <= |file|)
    ensures |FileSlice(file, offset, offset + length)| == length
    ensures Cut(FileSlice(file, offset, offset + length), sizes) == Clips(file, Places(offset, sizes))
  {
    hide FileSlice, Clip, Clips;
    if sizes == [] {
      SliceWhole(file, offset, length);
    } else {
      var init, last := sizes[..|sizes| - 1], sizes[|sizes| - 1];
      CutIsClips(file, offset, length, init);
      ClipsAppend(file, Places(offset, init), [(offset + Sum(init), last)]);
      CutOne(file, offset, length, Sum(init), last);
    }
  }

  lemma RunText(file: seq<byte>, adts: Option<Params>, run: Run)
    requires adts.Some? ==> Carried(adts.value)
    requires TightRun(run) && run.offset >= 0 && Inside(file, run)
    ensures var buf := FileSlice(file, run.offset, run.offset + run.length);
      |buf| == run.length &&
      Framed(adts, Cut(buf, run.sizes)) == Framed(adts, Clips(file, Places(run.offset, run.sizes)))
  {
    CutIsClips(file, run.offset, run.length, run.sizes);
  }

  lemma MoreText(file: seq<byte>, adts: Option<Params>, a: seq<(int, nat)>, b: seq<(int, nat)>)
    requires adts.Some? ==> Carried(adts.value)
    ensures Framed(adts, Clips(file, a + b)) == Framed(adts, Clips(file, a)) + Framed(adts, Clips(file, b))
  {
    ClipsAppend(file, a, b);
    FramedAppend(adts, Clips(file, a), Clips(file, b));
  }

  predicate InFile(file: seq<byte>, place: (int, nat)) {
    place.1 == 0 || (0 <= place.0 && place.0 + place.1 <= |file|)
  }

  lemma PlacesInFile(file: seq<byte>, r: Run)
    requires TightRun(r) && Inside(file, r)
    ensures forall p :: p in Places(r.offset, r.sizes) ==> InFile(file, p)
  {
    PlacesLength(r.offset, r.sizes);
    forall i | 0 <= i < |r.sizes| ensures InFile(file, Places(r.offset, r.sizes)[i]) {
      PlacesAt(r.offset, r.sizes, i);
      NextSize(r.sizes, i);
    }
  }

  lemma {:induction false} FlattenInFile(file: seq<byte>, runs: seq<Run>)
    requires Tight(runs) && forall i :: 0 <= i < |runs| ==> Inside(file, runs[i])
    ensures forall p :: p in Flatten(runs) ==> InFile(file, p)
  {
    hide InFile, Inside, Places;
    if runs == [] {
      assert Flatten(runs) == [];
    } else {
      TightTail(runs);
      PlacesInFile(file, runs[0]);
      FlattenInFile(file, runs[1..]);
    }
  }

  /** The samples of a track whose runs are all in the file: there are as many as chunks and sizes give,
      and each is, to its full size, the bytes of the file where the tables put it. */
  ghost predicate SamplesOf(file: seq<byte>, t: Track, samples: seq<seq<byte>>) {
    && |samples| == Least(SamplesBefore(t, |t.chunkOffsets|), |t.sizes|)
    && forall c, i :: Holds(t, c, i) ==> i < |samples| && SampleAt(file, PlaceOf(t, c, i), samples[i])
  }

  predicate SampleAt(file: seq<byte>, place: (int, nat), s: seq<byte>) {
    if place.1 == 0 then s == []
    else 0 <= place.0 && place.0 + place.1 <= |file| && s == file[place.0..place.0 + place.1]
  }

  lemma ClipsAreSamples(file: seq<byte>, t: Track)
    requires forall i :: 0 <= i < |Runs(t)| ==> Inside(file, Runs(t)[i])
    ensures SamplesOf(file, t, Clips(file, Flatten(Runs(t))))
  {
    hide Runs, Flatten, SamplesBefore, PlaceOf;
    RunsFlat(t);
    RunsRefineTables(t);
    FlattenInFile(file, Runs(t));
    var places := Flatten(Runs(t));
    forall c, i | Holds(t, c, i) ensures i < |places| && SampleAt(file, PlaceOf(t, c, i), Clips(file, places)[i]) {
      assert places[i] in places && InFile(file, places[i]);
    }
  }

  /** For an MP3 track the extracted bytes are the samples the tables point at, one after the other. */
  lemma ExtractedMp3(file: seq<byte>, t: Track)
    requires forall i :: 0 <= i < |Runs(t)| ==> Readable(file, None, Runs(t)[i])
    ensures var samples := Clips(file, Flatten(Runs(t)));
      Framed(None, samples) == Concat(samples) && SamplesOf(file, t, samples)
  {
    hide Framed, Runs, Flatten;
    FramedMp3(Clips(file, Flatten(Runs(t))));
    ClipsAreSamples(file, t);
  }

  /** From file to decoder: what comes out of the extracted AAC stream is, frame by frame, exactly
      the samples the tables point at, with the track's parameters. */
  lemma ExtractedDecodes(file: seq<byte>, t: Track, p: Params)
    requires Carried(p) && forall i :: 0 <= i < |Runs(t)| ==> Readable(file, Some(p), Runs(t)[i])
    ensures var samples := Clips(file, Flatten(Runs(t)));
      DecodeStream(ReadFields, Framed(Some(p), samples)) == Some(Adts.Tagged(p, samples)) && SamplesOf(file, t, samples)
  {
    ClipsAreSamples(file, t);
    hide SamplesOf;
    var samples := Clips(file, Flatten(Runs(t)));
    FramedAac(p, samples);
    assert forall x :: x in Runs(t) ==> Framable(Some(p), x.sizes);
    FlattenFits(Runs(t), p);
    forall s | s in samples ensures |s| <= MAX_SAMPLE {
      var i :| 0 <= i < |samples| && samples[i] == s;
      assert samples[i] == Clip(file, Flatten(Runs(t))[i]) && Flatten(Runs(t))[i] in Flatten(Runs(t));
    }
    HeadersRead();
    DecodeInvertsFraming(ReadFields, p, samples);
  }

  lemma {:induction false} FlattenFits(runs: seq<Run>, p: Params)
    requires forall x :: x in runs ==> Framable(Some(p), x.sizes)
    ensures forall s :: s in Flatten(runs) ==> s.1 <= MAX_SAMPLE
  {
    if runs == [] {
    } else {
      assert runs[0] in runs && forall x :: x in runs[1..] ==> x in runs;
      FlattenFits(runs[1..], p);
      PlacesFit(runs[0].offset, runs[0].sizes);
    }
  }

  lemma {:induction false} PlacesFit(offset: int, sizes: seq<nat>)
    requires forall i :: 0 <= i < |sizes| ==> sizes[i] <= MAX_SAMPLE
    ensures forall s :: s in Places(offset, sizes) ==> s.1 <= MAX_SAMPLE
  {
    if sizes == [] {
    } else {
      PlacesFit(offset, sizes[..|sizes| - 1]);
    }
  }
}
