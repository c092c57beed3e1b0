/** Reading a track's samples in few large runs (`tableRuns` in web/src/extractAudio.ts). */
module SampleTable {
  import opened Options

  const READ_BATCH := 8 * 1024 * 1024

  datatype Run = Run(offset: int, length: int, sizes: seq<nat>)

  /** The index of a regular MP4 track: sample sizes, chunk offsets, and which chunk on (1-based)
      holds how many samples per chunk (section 8.7.4 of ISO/IEC 14496-12). */
  datatype Track = Track(sizes: seq<nat>, chunkOffsets: seq<nat>, stsc: seq<(nat, nat)>)

  function Sum(sizes: seq<nat>): nat {
    if sizes == [] then 0 else Sum(sizes[..|sizes| - 1]) + sizes[|sizes| - 1]
  }

  lemma {:induction false} SumAppend(a: seq<nat>, b: seq<nat>)
    ensures Sum(a + b) == Sum(a) + Sum(b)
  {
    if b == [] {
      assert a + b == a;
    } else {
      assert (a + b)[..|a + b| - 1] == a + b[..|b| - 1];
      SumAppend(a, b[..|b| - 1]);
    }
  }

  // ---- samplesInChunk --------------------------------------------------------------------

  /** The count of the last entry before the first one that starts after `chunk`. */
  function CountIn(stsc: seq<(nat, nat)>, chunk: nat, n: nat): nat {
    if stsc == [] || stsc[0].0 > chunk then n else CountIn(stsc[1..], chunk, stsc[0].1)
  }

  method SamplesInChunk(stsc: seq<(nat, nat)>, chunk: nat) returns (n: nat)
    ensures n == CountIn(stsc, chunk, 0)
  {
    n := 0;
    for i := 0 to |stsc|
      invariant CountIn(stsc[i..], chunk, n) == CountIn(stsc, chunk, 0)
    {
      if stsc[i].0 > chunk {
        return;
      }
      n := stsc[i].1;
      assert stsc[i..][1..] == stsc[i + 1..];
    }
  }

  /** In a table in order, a chunk has the count of the entry it falls under, and 0 before the
      first entry. */
  lemma {:induction false} CountInOrder(stsc: seq<(nat, nat)>, chunk: nat, n: nat, i: nat)
    requires forall j, k :: 0 <= j < k < |stsc| ==> stsc[j].0 <= stsc[k].0
    requires i < |stsc| && stsc[i].0 <= chunk && (i + 1 < |stsc| ==> stsc[i + 1].0 > chunk)
    ensures CountIn(stsc, chunk, n) == stsc[i].1
  {
    assert stsc[0].0 <= stsc[i].0;
    if i > 0 {
      CountInOrder(stsc[1..], chunk, stsc[0].1, i - 1);
    } else {
      assert CountIn(stsc[1..], chunk, stsc[0].1) == stsc[0].1;
    }
  }

  // ---- the chunks, one run each ----------------------------------------------------------

  function Slice(sizes: seq<nat>, from: nat, n: nat): seq<nat> {
    if from >= |sizes| then [] else if from + n > |sizes| then sizes[from..] else sizes[from..from + n]
  }

  /** One run per chunk from `chunk` on, its samples starting at index `sample`. */
  function ChunkRuns(t: Track, chunk: nat, sample: nat): seq<Run>
    decreases |t.chunkOffsets| - chunk
  {
    if chunk >= |t.chunkOffsets| || sample >= |t.sizes| then []
    else
      var n := CountIn(t.stsc, chunk + 1, 0);
      var sizes := Slice(t.sizes, sample, n);
      [Run(t.chunkOffsets[chunk], Sum(sizes), sizes)] + ChunkRuns(t, chunk + 1, sample + n)
  }

  predicate Mergeable(a: Run, b: Run) {
    a.offset + a.length == b.offset && a.length + b.length <= READ_BATCH
  }

  function Merge(a: Run, b: Run): Run { Run(a.offset, a.length + b.length, a.sizes + b.sizes) }

  function Coalesce(cur: Run, rest: seq<Run>): seq<Run>
    decreases |rest|
  {
    if rest == [] then [cur]
    else if Mergeable(cur, rest[0]) then Coalesce(Merge(cur, rest[0]), rest[1..])
    else [cur] + Coalesce(rest[0], rest[1..])
  }

  function CoalesceFrom(cur: Option<Run>, rest: seq<Run>): seq<Run> {
    if cur.Some? then Coalesce(cur.value, rest)
    else if rest == [] then [] else Coalesce(rest[0], rest[1..])
  }

  function Runs(t: Track): seq<Run> { CoalesceFrom(None, ChunkRuns(t, 0, 0)) }

  /** `tableRuns` as the source writes it: one run under construction, yielded when the next chunk
      cannot join it. */
  method TableRuns(t: Track) returns (out: seq<Run>)
    ensures out == Runs(t)
  {
    hide CountIn, Slice, Sum, Mergeable, Merge;
    out := [];
    var sample: nat, chunk: nat := 0, 0;
    var cur: Option<Run> := None;
    while chunk < |t.chunkOffsets| && sample < |t.sizes|
      invariant out + CoalesceFrom(cur, ChunkRuns(t, chunk, sample)) == Runs(t)
      decreases |t.chunkOffsets| - chunk
    {
      ghost var todo := ChunkRuns(t, chunk, sample);
      var n := SamplesInChunk(t.stsc, chunk + 1);
      var sizes := Slice(t.sizes, sample, n);
      var run := Run(t.chunkOffsets[chunk], Sum(sizes), sizes);
      sample := sample + n;
      chunk := chunk + 1;
      assert todo == [run] + ChunkRuns(t, chunk, sample);
      assert todo[1..] == ChunkRuns(t, chunk, sample);
      if cur.Some? && Mergeable(cur.value, run) {
        cur := Some(Merge(cur.value, run));
      } else {
        if cur.Some? {
          out := out + [cur.value];
        }
        cur := Some(run);
      }
    }
    if cur.Some? {
      out := out + [cur.value];
    }
  }

  // ---- what the runs hold ----------------------------------------------------------------

  /** Where each sample of a run lies. */
  function Places(offset: int, sizes: seq<nat>): seq<(int, nat)> {
    if sizes == [] then []
    else Places(offset, sizes[..|sizes| - 1]) + [(offset + Sum(sizes[..|sizes| - 1]), sizes[|sizes| - 1])]
  }

  function Flatten(runs: seq<Run>): seq<(int, nat)> {
    if runs == [] then [] else Places(runs[0].offset, runs[0].sizes) + Flatten(runs[1..])
  }

  predicate TightRun(r: Run) { r.length == Sum(r.sizes) }
  ghost predicate Tight(runs: seq<Run>) { forall r :: r in runs ==> TightRun(r) }

  lemma {:induction false} PlacesAppend(offset: int, a: seq<nat>, b: seq<nat>)
    ensures Places(offset, a + b) == Places(offset, a) + Places(offset + Sum(a), b)
  {
    if b == [] {
      assert a + b == a;
    } else {
      var init := b[..|b| - 1];
      assert (a + b)[..|a + b| - 1] == a + init;
      PlacesAppend(offset, a, init);
      SumAppend(a, init);
    }
  }

  lemma {:induction false} ChunkRunsTight(t: Track, chunk: nat, sample: nat)
    ensures Tight(ChunkRuns(t, chunk, sample))
    decreases |t.chunkOffsets| - chunk
  {
    if chunk < |t.chunkOffsets| && sample < |t.sizes| {
      ChunkRunsTight(t, chunk + 1, sample + CountIn(t.stsc, chunk + 1, 0));
    }
  }

  lemma MergePlaces(a: Run, b: Run)
    requires TightRun(a) && TightRun(b) && Mergeable(a, b)
    ensures TightRun(Merge(a, b)) && Merge(a, b).offset == a.offset
    ensures Places(a.offset, Merge(a, b).sizes) == Places(a.offset, a.sizes) + Places(b.offset, b.sizes)
  {
    SumAppend(a.sizes, b.sizes);
    PlacesAppend(a.offset, a.sizes, b.sizes);
  }

  lemma TightTail(rest: seq<Run>)
    requires Tight(rest) && rest != []
    ensures TightRun(rest[0]) && Tight(rest[1..])
  {
    assert rest[0] in rest && forall r :: r in rest[1..] ==> r in rest;
  }

  /** Coalescing loses, moves and reorders no sample. */
  lemma {:induction false} CoalesceKeepsSamples(cur: Run, rest: seq<Run>)
    requires TightRun(cur) && Tight(rest)
    ensures Flatten(Coalesce(cur, rest)) == Places(cur.offset, cur.sizes) + Flatten(rest)
    ensures Tight(Coalesce(cur, rest))
    decreases |rest|
  {
    hide Places, Mergeable, Merge, TightRun;
    if rest == [] {
      assert [cur][1..] == [];
    } else {
      TightTail(rest);
      if Mergeable(cur, rest[0]) {
        MergePlaces(cur, rest[0]);
        CoalesceKeepsSamples(Merge(cur, rest[0]), rest[1..]);
        var here, next, later := Places(cur.offset, cur.sizes), Places(rest[0].offset, rest[0].sizes), Flatten(rest[1..]);
        assert here + next + later == here + (next + later);
      } else {
        CoalesceKeepsSamples(rest[0], rest[1..]);
        assert ([cur] + Coalesce(rest[0], rest[1..]))[1..] == Coalesce(rest[0], rest[1..]);
      }
    }
  }

  /** A run is within the batch limit, or is one chunk as it stands in the table. */
  lemma {:induction false} CoalesceBound(cur: Run, rest: seq<Run>, r: Run)
    requires r in Coalesce(cur, rest)
    ensures r.length <= READ_BATCH || r == cur || r in rest
    decreases |rest|
  {
    if rest == [] {
    } else {
      if Mergeable(cur, rest[0]) {
        CoalesceBound(Merge(cur, rest[0]), rest[1..], r);
      } else if r != cur {
        CoalesceBound(rest[0], rest[1..], r);
      }
    }
  }

  lemma {:induction false} CoalesceHead(cur: Run, rest: seq<Run>)
    requires TightRun(cur) && Tight(rest)
    ensures Coalesce(cur, rest) != [] && Coalesce(cur, rest)[0].offset == cur.offset
    ensures Coalesce(cur, rest)[0].length >= cur.length
    decreases |rest|
  {
    if rest == [] {
    } else {
      TightTail(rest);
      if Mergeable(cur, rest[0]) {
        MergePlaces(cur, rest[0]);
        CoalesceHead(Merge(cur, rest[0]), rest[1..]);
      }
    }
  }

  /** No two neighbouring runs could have been one. */
  lemma {:induction false} CoalesceMaximal(cur: Run, rest: seq<Run>, i: nat)
    requires TightRun(cur) && Tight(rest) && i + 1 < |Coalesce(cur, rest)|
    ensures !Mergeable(Coalesce(cur, rest)[i], Coalesce(cur, rest)[i + 1])
    decreases |rest|
  {
    if rest == [] {
    } else {
      TightTail(rest);
      if Mergeable(cur, rest[0]) {
        MergePlaces(cur, rest[0]);
        CoalesceMaximal(Merge(cur, rest[0]), rest[1..], i);
      } else {
        CoalesceHead(rest[0], rest[1..]);
        if i > 0 {
          CoalesceMaximal(rest[0], rest[1..], i - 1);
        }
      }
    }
  }

  // ---- against the tables ----------------------------------------------------------------

  /** How many samples the tables put before chunk `chunk` (0-based). */
  function SamplesBefore(t: Track, chunk: nat): nat {
    if chunk == 0 then 0 else SamplesBefore(t, chunk - 1) + CountIn(t.stsc, chunk, 0)
  }

  lemma {:induction false} PlacesAt(offset: int, sizes: seq<nat>, i: nat)
    requires i < |sizes|
    ensures |Places(offset, sizes)| == |sizes| && Places(offset, sizes)[i] == (offset + Sum(sizes[..i]), sizes[i])
  {
    if i < |sizes| - 1 {
      PlacesAt(offset, sizes[..|sizes| - 1], i);
      assert sizes[..|sizes| - 1][..i] == sizes[..i];
    } else if i > 0 {
      PlacesAt(offset, sizes[..|sizes| - 1], i - 1);
    }
  }

  lemma {:induction false} PlacesLength(offset: int, sizes: seq<nat>)
    ensures |Places(offset, sizes)| == |sizes|
  {
    if sizes == [] {
    } else {
      PlacesLength(offset, sizes[..|sizes| - 1]);
    }
  }

  lemma {:induction false} SamplesBeforeGrow(t: Track, a: nat, b: nat)
    requires a <= b
    ensures SamplesBefore(t, a) <= SamplesBefore(t, b)
    decreases b - a
  {
    if a == b {
    } else {
      SamplesBeforeGrow(t, a, b - 1);
    }
  }

  /** Chunk `c` holds sample `i`, counting both from 0. */
  ghost predicate Holds(t: Track, c: int, i: int) {
    0 <= c < |t.chunkOffsets| && SamplesBefore(t, c) <= i < SamplesBefore(t, c + 1) && i < |t.sizes|
  }

  /** The samples left from chunk `from` on, flattened. */
  function Rest(t: Track, from: nat): seq<(int, nat)> { Flatten(ChunkRuns(t, from, SamplesBefore(t, from))) }

  lemma RestStep(t: Track, from: nat)
    requires from < |t.chunkOffsets| && SamplesBefore(t, from) < |t.sizes|
    ensures var b, n := SamplesBefore(t, from), CountIn(t.stsc, from + 1, 0);
      && SamplesBefore(t, from + 1) == b + n
      && Rest(t, from) == Places(t.chunkOffsets[from], Slice(t.sizes, b, n)) + Rest(t, from + 1)
      && |Places(t.chunkOffsets[from], Slice(t.sizes, b, n))| == |Slice(t.sizes, b, n)|
  {
    var b, n := SamplesBefore(t, from), CountIn(t.stsc, from + 1, 0);
    assert ChunkRuns(t, from, b)[1..] == ChunkRuns(t, from + 1, b + n);
    PlacesLength(t.chunkOffsets[from], Slice(t.sizes, b, n));
  }

  ghost function PlaceOf(t: Track, c: nat, i: nat): (int, nat)
    requires Holds(t, c, i)
  {
    (t.chunkOffsets[c] + Sum(t.sizes[SamplesBefore(t, c)..i]), t.sizes[i])
  }

  lemma RestHere(t: Track, c: nat, i: nat)
    requires Holds(t, c, i)
    ensures var b := SamplesBefore(t, c); i - b < |Rest(t, c)| && Rest(t, c)[i - b] == PlaceOf(t, c, i)
  {
    hide Rest, SamplesBefore, CountIn, Places, Sum;
    var b := SamplesBefore(t, c);
    RestStep(t, c);
    var sizes := Slice(t.sizes, b, CountIn(t.stsc, c + 1, 0));
    PlacesAt(t.chunkOffsets[c], sizes, i - b);
    assert sizes[..i - b] == t.sizes[b..i];
  }

  lemma RestSplit(t: Track, from: nat) returns (head: seq<(int, nat)>)
    requires from < |t.chunkOffsets| && SamplesBefore(t, from) < |t.sizes| && SamplesBefore(t, from + 1) <= |t.sizes|
    ensures Rest(t, from) == head + Rest(t, from + 1)
    ensures SamplesBefore(t, from + 1) == SamplesBefore(t, from) + |head|
  {
    RestStep(t, from);
    head := Places(t.chunkOffsets[from], Slice(t.sizes, SamplesBefore(t, from), CountIn(t.stsc, from + 1, 0)));
  }

  /** Sample `i` of chunk `c` comes up where the tables put it. */
  lemma {:induction false} RestAt(t: Track, from: nat, c: nat, i: nat)
    requires from <= c && Holds(t, c, i)
    ensures var b := SamplesBefore(t, from); b <= i < b + |Rest(t, from)| && Rest(t, from)[i - b] == PlaceOf(t, c, i)
    decreases c - from
  {
    hide Rest, PlaceOf, SamplesBefore, CountIn, Slice, Places;
    SamplesBeforeGrow(t, from, c);
    if from == c {
      RestHere(t, c, i);
    } else {
      SamplesBeforeGrow(t, from + 1, c);
      var head := RestSplit(t, from);
      RestAt(t, from + 1, c, i);
    }
  }

  function Least(a: nat, b: nat): nat { if a < b then a else b }

  /** All samples the chunks have room for, once each, in order. */
  lemma {:induction false} RestCount(t: Track, from: nat)
    requires from <= |t.chunkOffsets| && SamplesBefore(t, from) <= |t.sizes|
    ensures SamplesBefore(t, from) + |Rest(t, from)| == Least(SamplesBefore(t, |t.chunkOffsets|), |t.sizes|)
    decreases |t.chunkOffsets| - from
  {
    SamplesBeforeGrow(t, from, |t.chunkOffsets|);
    if from < |t.chunkOffsets| && SamplesBefore(t, from) < |t.sizes| {
      RestStep(t, from);
      SamplesBeforeGrow(t, from + 1, |t.chunkOffsets|);
      if SamplesBefore(t, from + 1) <= |t.sizes| {
        RestCount(t, from + 1);
      }
    }
  }

  lemma RunsFlat(t: Track)
    ensures Flatten(Runs(t)) == Rest(t, 0) && Tight(Runs(t))
  {
    var chunks := ChunkRuns(t, 0, 0);
    ChunkRunsTight(t, 0, 0);
    if chunks != [] {
      TightTail(chunks);
      CoalesceKeepsSamples(chunks[0], chunks[1..]);
    }
  }

  /** Coalesced reading refines the sample tables: the runs hold, sample by sample, what the tables
      say. Sample `i` of chunk `c` lies at the chunk's offset plus the sizes before it in the
      chunk, and every sample that some chunk holds is there once. */
  lemma RunsRefineTables(t: Track)
    ensures Flatten(Runs(t)) == Flatten(ChunkRuns(t, 0, 0))
    ensures |Flatten(Runs(t))| == Least(SamplesBefore(t, |t.chunkOffsets|), |t.sizes|)
    ensures forall c, i :: Holds(t, c, i) ==> i < |Flatten(Runs(t))| && Flatten(Runs(t))[i] == PlaceOf(t, c, i)
  {
    RunsFlat(t);
    RestCount(t, 0);
    forall c, i | Holds(t, c, i) ensures i < |Rest(t, 0)| && Rest(t, 0)[i] == PlaceOf(t, c, i) {
      RestAt(t, 0, c, i);
    }
  }

  /** The runs are as large as may be: each within the limit or a single chunk, and no two
      neighbours could be one. */
  lemma RunsAreLargest(t: Track, i: nat)
    requires i < |Runs(t)|
    ensures Runs(t)[i].length <= READ_BATCH || Runs(t)[i] in ChunkRuns(t, 0, 0)
    ensures i + 1 < |Runs(t)| ==>
      var a, b := Runs(t)[i], Runs(t)[i + 1]; a.offset + a.length != b.offset || a.length + b.length > 8 * 1024 * 1024
  {
    var chunks := ChunkRuns(t, 0, 0);
    ChunkRunsTight(t, 0, 0);
    TightTail(chunks);
    CoalesceBound(chunks[0], chunks[1..], Runs(t)[i]);
    if i + 1 < |Runs(t)| {
      CoalesceMaximal(chunks[0], chunks[1..], i);
    }
  }

  lemma {:induction false} LargeStays(cur: Run, rest: seq<Run>, c: Run)
    requires TightRun(cur) && Tight(rest) && c.length > READ_BATCH && (c == cur || c in rest)
    ensures c in Coalesce(cur, rest)
    decreases |rest|
  {
    if rest == [] {
    } else {
      TightTail(rest);
      assert rest == [rest[0]] + rest[1..];
      if Mergeable(cur, rest[0]) {
        MergePlaces(cur, rest[0]);
        LargeStays(Merge(cur, rest[0]), rest[1..], c);
      } else if c != cur {
        LargeStays(rest[0], rest[1..], c);
      }
    }
  }

  /** When is the limit kept? The runs over it are exactly the table's chunks over it, so it is kept
      exactly if every chunk keeps it. */
  lemma LargeRuns(t: Track)
    ensures forall r: Run :: r.length > READ_BATCH ==> (r in Runs(t) <==> r in ChunkRuns(t, 0, 0))
    ensures (forall r :: r in Runs(t) ==> r.length <= READ_BATCH) <==> (forall c :: c in ChunkRuns(t, 0, 0) ==> c.length <= READ_BATCH)
  {
    var chunks := ChunkRuns(t, 0, 0);
    ChunkRunsTight(t, 0, 0);
    if chunks != [] {
      TightTail(chunks);
    }
    forall r: Run | r.length > READ_BATCH ensures r in Runs(t) <==> r in chunks {
      if r in Runs(t) {
        CoalesceBound(chunks[0], chunks[1..], r);
      } else if r in chunks {
        LargeStays(chunks[0], chunks[1..], r);
      }
    }
  }

  /** A track with one chunk of nine megabytes, read in one run. */
  lemma LargeChunk() returns (t: Track)
    ensures Runs(t) == [Run(48, 9 * 1024 * 1024, [9 * 1024 * 1024])] && Runs(t)[0].length > READ_BATCH
  {
    var size: nat := 9 * 1024 * 1024;
    t := Track([size], [48], [(1, 1)]);
    CountInOrder(t.stsc, 1, 0, 0);
    assert Slice(t.sizes, 0, 1) == t.sizes && t.sizes[..0] == [];
    assert Sum(t.sizes) == size;
    assert ChunkRuns(t, 0, 0) == [Run(48, size, [size])];
  }
}
