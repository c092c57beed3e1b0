/** Reading movie fragments byte by byte (`fragmentRuns` in web/src/extractAudio.ts), and writing
    them as section 8.8 of ISO/IEC 14496-12 lays them out. */
module FragmentBytes {
  import opened Options
  import opened Bytes
  import opened Fragments

  // ---- reading numbers -------------------------------------------------------------------

  /** `DataView.getUint32` and `getBigUint64`; None is the RangeError. */
  function Get(v: seq<byte>, at: int, width: nat): Option<nat> {
    if 0 <= at && at + width <= |v| then Some(FromBigEndian(v[at..at + width])) else None
  }

  ghost predicate At(v: seq<byte>, p: int, text: seq<byte>) { 0 <= p && p + |text| <= |v| && v[p..p + |text|] == text }

  lemma AtSplit(v: seq<byte>, p: int, a: seq<byte>, b: seq<byte>)
    ensures At(v, p, a + b) <==> At(v, p, a) && At(v, p + |a|, b)
  {
    if At(v, p, a + b) {
      assert v[p..p + |a|] == v[p..p + |a + b|][..|a|];
      assert v[p + |a|..p + |a| + |b|] == v[p..p + |a + b|][|a|..];
    }
    if At(v, p, a) && At(v, p + |a|, b) {
      assert v[p..p + |a + b|] == v[p..p + |a|] + v[p + |a|..p + |a| + |b|];
    }
  }

  lemma GetsBack(v: seq<byte>, p: int, n: nat, width: nat)
    requires At(v, p, BigEndian(n, width)) && n < Pow256(width)
    ensures Get(v, p, width) == Some(n)
  {
    ReadsBack(n, width);
  }

  function Signed(n: nat): int { if n >= 0x8000_0000 then n - 0x1_0000_0000 else n }
  function Unsigned(i: int): nat { i % 0x1_0000_0000 }

  predicate Bit(n: nat, k: nat) requires k > 0 { n / k % 2 == 1 }
  function Flag(b: bool, k: nat): nat { if b then k else 0 }

  // ---- a track run -----------------------------------------------------------------------

  datatype TrunRead = TrunRead(dataOffset: Option<int>, sizes: seq<nat>)

  function SizesAt(v: seq<byte>, at: int, stride: nat, n: nat): Option<seq<nat>>
    decreases n
  {
    if n == 0 then Some([]) else Front(Get(v, at, 4), SizesAt(v, at + stride, stride, n - 1))
  }

  function Front(x: Option<nat>, more: Option<seq<nat>>): Option<seq<nat>> {
    if x.None? || more.None? then None else Some([x.value] + more.value)
  }

  function Back(more: Option<seq<nat>>, x: Option<nat>): Option<seq<nat>> {
    if x.None? || more.None? then None else Some(more.value + [x.value])
  }

  lemma FrontBack(x: Option<nat>, more: Option<seq<nat>>, y: Option<nat>)
    ensures Front(x, Back(more, y)) == Back(Front(x, more), y)
    ensures Front(x, Some([])) == Back(Some([]), x)
  {
    if x.Some? {
      assert [x.value] + [] == [] + [x.value];
    }
    if x.Some? && more.Some? && y.Some? {
      assert [x.value] + (more.value + [y.value]) == [x.value] + more.value + [y.value];
    }
  }

  function SizesFrom(v: seq<byte>, flags: nat, q: int, count: nat, default: nat): Option<seq<nat>> {
    var stride := Flag(Bit(flags, 0x100), 4) + Flag(Bit(flags, 0x200), 4) + Flag(Bit(flags, 0x400), 4) + Flag(Bit(flags, 0x800), 4);
    if Bit(flags, 0x200) then SizesAt(v, q + Flag(Bit(flags, 0x100), 4), stride, count)
    else Some(seq(count, _ => default))
  }

  function TrunAt(v: seq<byte>, start: int, default: nat): Option<TrunRead> {
    var word, count := Get(v, start, 4), Get(v, start + 4, 4);
    if word.None? || count.None? then None
    else
      var flags := word.value % 0x100_0000;
      var offset := if Bit(flags, 1) then Get(v, start + 8, 4) else Some(0);
      var q := start + 8 + Flag(Bit(flags, 1), 4) + Flag(Bit(flags, 4), 4);
      var sizes := SizesFrom(v, flags, q, count.value, default);
      if offset.None? || sizes.None? then None
      else Some(TrunRead(if Bit(flags, 1) then Some(Signed(offset.value)) else None, sizes.value))
  }

  lemma {:induction false} SizesSnoc(v: seq<byte>, at: int, stride: nat, n: nat)
    ensures SizesAt(v, at, stride, n + 1) == Back(SizesAt(v, at, stride, n), Get(v, at + n * stride, 4))
    decreases n
  {
    hide Get, Front, Back;
    if n == 0 {
      assert SizesAt(v, at + stride, stride, 0) == Some([]);
      FrontBack(Get(v, at, 4), None, None);
    } else {
      SizesSnoc(v, at + stride, stride, n - 1);
      assert at + stride + (n - 1) * stride == at + n * stride;
      FrontBack(Get(v, at, 4), SizesAt(v, at + stride, stride, n - 1), Get(v, at + n * stride, 4));
    }
  }

  lemma {:induction false} NoSizes(v: seq<byte>, at: int, stride: nat, n: nat, m: nat)
    requires n <= m && SizesAt(v, at, stride, n).None?
    ensures SizesAt(v, at, stride, m).None?
    decreases m
  {
    if n >= m {
    } else {
      NoSizes(v, at, stride, n, m - 1);
      SizesSnoc(v, at, stride, m - 1);
    }
  }

  /** The loop over a run's rows. */
  method ReadSizes(v: seq<byte>, q: int, stride: nat, sizeAt: nat, n: nat) returns (r: Option<seq<nat>>)
    ensures r == SizesAt(v, q + sizeAt, stride, n)
  {
    hide Get, SizesAt;
    var sizes: seq<nat> := [];
    SizesNone(v, q + sizeAt, stride);
    for i := 0 to n
      invariant SizesAt(v, q + sizeAt, stride, i) == Some(sizes)
    {
      SizesSnoc(v, q + sizeAt, stride, i);
      var x := Get(v, q + i * stride + sizeAt, 4);
      assert q + i * stride + sizeAt == q + sizeAt + i * stride;
      if x.None? {
        NoSizes(v, q + sizeAt, stride, i + 1, n);
        return None;
      }
      sizes := sizes + [x.value];
    }
    r := Some(sizes);
  }

  lemma SizesNone(v: seq<byte>, at: int, stride: nat)
    ensures SizesAt(v, at, stride, 0) == Some([])
  {
  }

  method ReadTrun(v: seq<byte>, start: int, default: nat) returns (r: Option<TrunRead>)
    ensures r == TrunAt(v, start, default)
  {
    hide Get, SizesAt;
    var word, count := Get(v, start, 4), Get(v, start + 4, 4);
    if word.None? || count.None? {
      return None;
    }
    var flags := word.value % 0x100_0000;
    var q := start + 8;
    var dataOffset := None;
    if Bit(flags, 1) {
      var n := Get(v, q, 4);
      if n.None? {
        return None;
      }
      dataOffset := Some(Signed(n.value));
      q := q + 4;
    }
    if Bit(flags, 4) {
      q := q + 4;
    }
    var sizes := Some(seq(count.value, _ => default));
    if Bit(flags, 0x200) {
      var stride := Flag(Bit(flags, 0x100), 4) + 4 + Flag(Bit(flags, 0x400), 4) + Flag(Bit(flags, 0x800), 4);
      sizes := ReadSizes(v, q, stride, Flag(Bit(flags, 0x100), 4), count.value);
    }
    r := if sizes.None? then None else Some(TrunRead(dataOffset, sizes.value));
  }

  // ---- writing a track run ---------------------------------------------------------------

  function Word(version: nat, flags: nat): nat { version * 0x100_0000 + flags }
  function Optional(n: Option<nat>, width: nat): seq<byte> { if n.Some? then BigEndian(n.value, width) else [] }
  function If(b: bool, n: nat): Option<nat> { if b then Some(n) else None }

  function TrunFlags(t: Trun): nat {
    Flag(t.dataOffset.Some?, 1) + Flag(t.firstFlags.Some?, 4) + Flag(t.durations, 0x100) + Flag(t.sizes, 0x200)
      + Flag(t.flags, 0x400) + Flag(t.offsets, 0x800)
  }

  function WriteRow(t: Trun, r: Row): seq<byte> {
    Optional(If(t.durations, r.duration), 4) + Optional(If(t.sizes, r.size), 4)
      + (Optional(If(t.flags, r.flags), 4) + Optional(If(t.offsets, r.offset), 4))
  }

  function WriteRows(t: Trun, rows: seq<Row>): seq<byte> {
    if rows == [] then [] else WriteRow(t, rows[0]) + WriteRows(t, rows[1..])
  }

  function WriteTrun(t: Trun): seq<byte> {
    BigEndian(Word(t.version, TrunFlags(t)), 4) + (BigEndian(|t.rows|, 4)
      + (Optional(OffsetField(t), 4)
      + (Optional(t.firstFlags, 4) + WriteRows(t, t.rows))))
  }

  predicate Fits32(n: nat) { n < 0x1_0000_0000 }
  predicate OptionFits(n: Option<nat>) { n.Some? ==> Fits32(n.value) }

  predicate TrunOk(t: Trun) {
    && t.version < 256 && Fits32(|t.rows|) && OptionFits(t.firstFlags)
    && (t.dataOffset.Some? ==> -0x8000_0000 <= t.dataOffset.value < 0x8000_0000)
    && forall i :: 0 <= i < |t.rows| ==> RowOk(t.rows[i])
  }

  predicate RowOk(r: Row) { Fits32(r.duration) && Fits32(r.size) && Fits32(r.flags) && Fits32(r.offset) }

  lemma OptionalLength(n: Option<nat>, width: nat)
    ensures |Optional(n, width)| == Flag(n.Some?, width)
  {
  }

  function StrideOf(t: Trun): nat { Flag(t.durations, 4) + Flag(t.sizes, 4) + Flag(t.flags, 4) + Flag(t.offsets, 4) }

  /** The flags of a track run are read as they were set. */
  lemma TrunFlagsRead(t: Trun) returns (f: nat)
    requires t.version < 256
    ensures Word(t.version, TrunFlags(t)) < 0x1_0000_0000 && f == Word(t.version, TrunFlags(t)) % 0x100_0000
    ensures Bit(f, 1) == t.dataOffset.Some? && Bit(f, 4) == t.firstFlags.Some? && RowFlags(t, f)
  {
    f := TrunFlags(t);
    FlagsOfWord(t.version, f);
  }

  /** One row: its length, and its size where it has one. */
  lemma RowReads(v: seq<byte>, p: int, t: Trun, r: Row)
    requires RowOk(r) && At(v, p, WriteRow(t, r))
    ensures |WriteRow(t, r)| == StrideOf(t)
    ensures t.sizes ==> Get(v, p + Flag(t.durations, 4), 4) == Some(r.size)
  {
    var a, b := Optional(If(t.durations, r.duration), 4), Optional(If(t.sizes, r.size), 4);
    var c, d := Optional(If(t.flags, r.flags), 4), Optional(If(t.offsets, r.offset), 4);
    OptionalLength(If(t.durations, r.duration), 4);
    OptionalLength(If(t.sizes, r.size), 4);
    OptionalLength(If(t.flags, r.flags), 4);
    OptionalLength(If(t.offsets, r.offset), 4);
    AtSplit(v, p, a + b, c + d);
    AtSplit(v, p, a, b);
    if t.sizes {
      Widths();
      hide Optional, At;
      assert b == BigEndian(r.size, 4) by { SizeField4(t, r); }
      GetsBack(v, p + Flag(t.durations, 4), r.size, 4);
    }
  }

  lemma SizeField4(t: Trun, r: Row)
    requires t.sizes
    ensures Optional(If(t.sizes, r.size), 4) == BigEndian(r.size, 4)
  {
  }

  function RowSizes(rows: seq<Row>): (r: seq<nat>)
    ensures |r| == |rows| && forall i :: 0 <= i < |rows| ==> r[i] == rows[i].size
  {
    seq(|rows|, i requires 0 <= i < |rows| => rows[i].size)
  }

  lemma {:induction false} RowsRead(v: seq<byte>, p: int, t: Trun, rows: seq<Row>)
    requires t.sizes && (forall i :: 0 <= i < |rows| ==> RowOk(rows[i])) && At(v, p, WriteRows(t, rows))
    ensures SizesAt(v, p + Flag(t.durations, 4), StrideOf(t), |rows|) ==
      Some(RowSizes(rows))
    decreases |rows|
  {
    if rows != [] {
      var row, more := rows[0], rows[1..];
      AtSplit(v, p, WriteRow(t, row), WriteRows(t, more));
      RowReads(v, p, t, row);
      hide At, Get, WriteRow;
      RowsRead(v, p + StrideOf(t), t, more);
      assert p + StrideOf(t) + Flag(t.durations, 4) == p + Flag(t.durations, 4) + StrideOf(t);
      assert [row.size] + RowSizes(more) == RowSizes(rows);
    } else {
      assert RowSizes(rows) == [];
    }
  }

  lemma AtParts(v: seq<byte>, p: int, a: seq<byte>, b: seq<byte>, c: seq<byte>, d: seq<byte>, e: seq<byte>)
    requires At(v, p, a + (b + (c + (d + e))))
    ensures At(v, p, a) && At(v, p + |a|, b) && At(v, p + |a| + |b|, c)
    ensures At(v, p + |a| + |b| + |c|, d) && At(v, p + |a| + |b| + |c| + |d|, e)
  {
    AtSplit(v, p, a, b + (c + (d + e)));
    AtSplit(v, p + |a|, b, c + (d + e));
    AtSplit(v, p + |a| + |b|, c, d + e);
    AtSplit(v, p + |a| + |b| + |c|, d, e);
    hide At;
  }

  function OffsetField(t: Trun): Option<nat> { if t.dataOffset.Some? then Some(Unsigned(t.dataOffset.value)) else None }

  /** The parts of a written track run. */
  lemma TrunText(t: Trun)
    ensures WriteTrun(t) == BigEndian(Word(t.version, TrunFlags(t)), 4) + (BigEndian(|t.rows|, 4)
      + (Optional(OffsetField(t), 4) + (Optional(t.firstFlags, 4) + WriteRows(t, t.rows))))
    ensures OffsetField(t).Some? == t.dataOffset.Some?
  {
    hide WriteRows, TrunFlags, Word, BigEndian, Optional;
  }

  lemma TrunParts(v: seq<byte>, p: int, t: Trun)
    requires At(v, p, WriteTrun(t))
    ensures At(v, p, BigEndian(Word(t.version, TrunFlags(t)), 4)) && At(v, p + 4, BigEndian(|t.rows|, 4))
    ensures At(v, p + 8, Optional(OffsetField(t), 4))
    ensures At(v, p + 8 + Flag(t.dataOffset.Some?, 4) + Flag(t.firstFlags.Some?, 4), WriteRows(t, t.rows))
  {
    hide *;
    TrunText(t);
    OptionalLength(OffsetField(t), 4);
    OptionalLength(t.firstFlags, 4);
    AtParts(v, p, BigEndian(Word(t.version, TrunFlags(t)), 4), BigEndian(|t.rows|, 4), Optional(OffsetField(t), 4),
      Optional(t.firstFlags, 4), WriteRows(t, t.rows));
  }

  /** Flags that say of the rows what `t` says. */
  predicate RowFlags(t: Trun, f: nat) {
    Bit(f, 0x100) == t.durations && Bit(f, 0x200) == t.sizes && Bit(f, 0x400) == t.flags && Bit(f, 0x800) == t.offsets
  }

  lemma SizesRead(v: seq<byte>, f: nat, q: int, t: Trun, default: nat)
    requires TrunOk(t) && At(v, q, WriteRows(t, t.rows)) && RowFlags(t, f)
    ensures SizesFrom(v, f, q, |t.rows|, default) == Some(SizesOf(t, default))
  {
    hide At, WriteRows, Bit;
    if t.sizes {
      RowsRead(v, q, t, t.rows);
      assert RowSizes(t.rows) == SizesOf(t, default);
    } else {
      assert seq(|t.rows|, _ => default) == SizesOf(t, default);
    }
  }

  lemma SignedUnsigned(i: int)
    requires -0x8000_0000 <= i < 0x8000_0000
    ensures Signed(Unsigned(i)) == i && Unsigned(i) < 0x1_0000_0000
  {
  }

  lemma TrunFrom(v: seq<byte>, p: int, default: nat, word: nat, f: nat, q: int, count: nat, offset: Option<int>, sizes: seq<nat>)
    requires Get(v, p, 4) == Some(word) && Get(v, p + 4, 4) == Some(count) && f == word % 0x100_0000
    requires q == p + 8 + Flag(Bit(f, 1), 4) + Flag(Bit(f, 4), 4) && SizesFrom(v, f, q, count, default) == Some(sizes)
    requires Bit(f, 1) == offset.Some?
    requires offset.Some? ==> Get(v, p + 8, 4).Some? && Signed(Get(v, p + 8, 4).value) == offset.value
    ensures TrunAt(v, p, default) == Some(TrunRead(offset, sizes))
  {
    hide Get, SizesFrom, Bit, Signed, Flag;
  }

  /** The header fields of a written track run are read back. */
  lemma TrunHeadReads(v: seq<byte>, p: int, t: Trun)
    requires TrunOk(t) && At(v, p, WriteTrun(t))
    ensures Get(v, p, 4) == Some(Word(t.version, TrunFlags(t))) && Get(v, p + 4, 4) == Some(|t.rows|)
    ensures t.dataOffset.Some? ==>
      Get(v, p + 8, 4) == Some(Unsigned(t.dataOffset.value)) && Signed(Unsigned(t.dataOffset.value)) == t.dataOffset.value
    ensures At(v, p + 8 + Flag(t.dataOffset.Some?, 4) + Flag(t.firstFlags.Some?, 4), WriteRows(t, t.rows))
  {
    TrunParts(v, p, t);
    var f := TrunFlagsRead(t);
    Widths();
    assert t.dataOffset.Some? ==> Optional(OffsetField(t), 4) == BigEndian(Unsigned(t.dataOffset.value), 4);
    hide At, Get, WriteRows, WriteTrun, TrunFlags, Word, Bit, BigEndian, Optional;
    GetsBack(v, p, Word(t.version, TrunFlags(t)), 4);
    GetsBack(v, p + 4, |t.rows|, 4);
    if t.dataOffset.Some? {
      SignedUnsigned(t.dataOffset.value);
      hide Signed, Unsigned;
      GetsBack(v, p + 8, Unsigned(t.dataOffset.value), 4);
    }
  }

  /** A written track run is read back: where its data is said to start, and its sample sizes. */
  lemma TrunReadsBack(v: seq<byte>, p: int, t: Trun, default: nat)
    requires TrunOk(t) && At(v, p, WriteTrun(t))
    ensures TrunAt(v, p, default) == Some(TrunRead(t.dataOffset, SizesOf(t, default)))
  {
    hide At, Get, WriteRows, WriteTrun, TrunFlags, Word, Bit, SizesFrom, SizesOf, TrunAt, Signed, Unsigned, Flag;
    TrunHeadReads(v, p, t);
    var f := TrunFlagsRead(t);
    var q := p + 8 + Flag(t.dataOffset.Some?, 4) + Flag(t.firstFlags.Some?, 4);
    SizesRead(v, f, q, t, default);
    TrunFrom(v, p, default, Word(t.version, TrunFlags(t)), f, q, |t.rows|, t.dataOffset, SizesOf(t, default));
  }

  // ---- a track fragment's header ---------------------------------------------------------

  /** What the header says, if it is the track's own. */
  datatype Tfhd = Foreign | Own(base: Base, size: Option<nat>)

  function TfhdAt(v: seq<byte>, start: int, track: nat): Option<Tfhd> {
    var word, id := Get(v, start, 4), Get(v, start + 4, 4);
    if word.None? || id.None? then None
    else if id.value != track then Some(Foreign)
    else
      var f := word.value % 0x100_0000;
      var base := if Bit(f, 1) then Get(v, start + 8, 8) else Some(0);
      var p := start + 8 + Flag(Bit(f, 1), 8) + Flag(Bit(f, 2), 4) + Flag(Bit(f, 8), 4);
      var size := if Bit(f, 0x10) then Get(v, p, 4) else Some(0);
      if base.None? || size.None? then None
      else
        Some(Own(if Bit(f, 1) then Explicit(base.value, Bit(f, 0x2_0000)) else if Bit(f, 0x2_0000) then Moof else Implicit,
                 If(Bit(f, 0x10), size.value)))
  }

  method ReadTfhd(v: seq<byte>, start: int, track: nat) returns (r: Option<Tfhd>)
    ensures r == TfhdAt(v, start, track)
  {
    hide Get;
    var word, id := Get(v, start, 4), Get(v, start + 4, 4);
    if word.None? || id.None? {
      return None;
    }
    var f := word.value % 0x100_0000;
    if id.value != track {
      return Some(Foreign);
    }
    var p := start + 8;
    var base := Implicit;
    if Bit(f, 1) {
      var n := Get(v, p, 8);
      if n.None? {
        return None;
      }
      base := Explicit(n.value, Bit(f, 0x2_0000));
      p := p + 8;
    } else if Bit(f, 0x2_0000) {
      base := Moof;
    }
    if Bit(f, 2) {
      p := p + 4;
    }
    if Bit(f, 8) {
      p := p + 4;
    }
    if !Bit(f, 0x10) {
      return Some(Own(base, None));
    }
    var size := Get(v, p, 4);
    r := if size.None? then None else Some(Own(base, size));
  }

  function TfhdFlags(t: Traf): nat {
    Flag(t.base.Explicit?, 1) + Flag(t.description.Some?, 2) + Flag(t.duration.Some?, 8) + Flag(t.size.Some?, 0x10)
      + Flag(t.sampleFlags.Some?, 0x20) + Flag(t.base.Moof? || (t.base.Explicit? && t.base.alsoMoof), 0x2_0000)
  }

  function BaseField(t: Traf): Option<nat> { if t.base.Explicit? then Some(t.base.at) else None }

  function WriteTfhd(t: Traf): seq<byte> {
    BigEndian(Word(t.version, TfhdFlags(t)), 4) + (BigEndian(t.track, 4) + (Optional(BaseField(t), 8)
      + (Optional(t.description, 4) + (Optional(t.duration, 4) + (Optional(t.size, 4) + Optional(t.sampleFlags, 4))))))
  }

  predicate TfhdOk(t: Traf) {
    && t.version < 256 && Fits32(t.track) && OptionFits(t.description) && OptionFits(t.duration) && OptionFits(t.size)
    && OptionFits(t.sampleFlags) && (t.base.Explicit? ==> t.base.at < 0x1_0000_0000_0000_0000)
  }

  lemma TfhdFlagsRead(t: Traf) returns (f: nat)
    requires t.version < 256
    ensures Word(t.version, TfhdFlags(t)) < 0x1_0000_0000 && f == Word(t.version, TfhdFlags(t)) % 0x100_0000
    ensures Bit(f, 1) == t.base.Explicit? && Bit(f, 2) == t.description.Some? && Bit(f, 8) == t.duration.Some?
    ensures Bit(f, 0x10) == t.size.Some? && Bit(f, 0x2_0000) == (t.base.Moof? || (t.base.Explicit? && t.base.alsoMoof))
  {
    var a, b, c, d := One(t.base.Explicit?), One(t.description.Some?), One(t.duration.Some?), One(t.size.Some?);
    var e, g := One(t.sampleFlags.Some?), One(t.base.Moof? || (t.base.Explicit? && t.base.alsoMoof));
    f := TfhdFlags(t);
    TfhdBits(a, b, c, d, e, g, f);
    FlagsOfWord(t.version, f);
  }

  function One(b: bool): nat { if b then 1 else 0 }

  lemma FlagsOfWord(version: nat, flags: nat)
    requires version < 256 && flags < 0x100_0000
    ensures Word(version, flags) < 0x1_0000_0000 && Word(version, flags) % 0x100_0000 == flags
  {
  }

  lemma TfhdBits(a: nat, b: nat, c: nat, d: nat, e: nat, g: nat, f: nat)
    requires a <= 1 && b <= 1 && c <= 1 && d <= 1 && e <= 1 && g <= 1
    requires f == a + 2 * b + 8 * c + 0x10 * d + 0x20 * e + 0x2_0000 * g
    ensures f < 0x100_0000 && Bit(f, 1) == (a == 1) && Bit(f, 2) == (b == 1) && Bit(f, 8) == (c == 1)
    ensures Bit(f, 0x10) == (d == 1) && Bit(f, 0x2_0000) == (g == 1)
  {
    assert f / 2 == b + 2 * (2 * c + 4 * d + 8 * e + 0x8000 * g);
    assert f / 8 == c + 2 * (d + 2 * e + 0x2000 * g);
    assert f / 0x10 == d + 2 * (e + 0x1000 * g);
    assert f / 0x2_0000 == g;
  }

  lemma OptionalReads(v: seq<byte>, p: int, n: Option<nat>, width: nat)
    requires At(v, p, Optional(n, width)) && (n.Some? ==> n.value < Pow256(width))
    ensures n.Some? ==> Get(v, p, width) == n
  {
    if n.Some? {
      GetsBack(v, p, n.value, width);
    }
  }

  lemma TfhdText(t: Traf)
    requires TfhdOk(t)
    ensures WriteTfhd(t) == BigEndian(Word(t.version, TfhdFlags(t)), 4) + (BigEndian(t.track, 4) + (Optional(BaseField(t), 8)
      + (Optional(t.description, 4) + (Optional(t.duration, 4) + (Optional(t.size, 4) + Optional(t.sampleFlags, 4))))))
    ensures BaseField(t) == if t.base.Explicit? then Some(t.base.at) else None
    ensures Word(t.version, TfhdFlags(t)) < Pow256(4) && t.track < Pow256(4)
    ensures (t.base.Explicit? ==> t.base.at < Pow256(8)) && (t.size.Some? ==> t.size.value < Pow256(4))
  {
    var f := TfhdFlagsRead(t);
    Widths();
    hide TfhdFlags, Word, BigEndian, Optional, Bit;
  }

  lemma TfhdParts(v: seq<byte>, p: int, t: Traf)
    requires TfhdOk(t) && At(v, p, WriteTfhd(t))
    ensures Get(v, p, 4) == Some(Word(t.version, TfhdFlags(t))) && Get(v, p + 4, 4) == Some(t.track)
    ensures t.base.Explicit? ==> Get(v, p + 8, 8) == Some(t.base.at)
    ensures t.size.Some? ==>
      Get(v, p + 8 + Flag(t.base.Explicit?, 8) + Flag(t.description.Some?, 4) + Flag(t.duration.Some?, 4), 4) == t.size
  {
    hide *;
    TfhdText(t);
    OptionalLength(BaseField(t), 8);
    OptionalLength(t.description, 4);
    OptionalLength(t.duration, 4);
    var q := p + 8 + Flag(t.base.Explicit?, 8) + Flag(t.description.Some?, 4);
    AtParts(v, p, BigEndian(Word(t.version, TfhdFlags(t)), 4), BigEndian(t.track, 4), Optional(BaseField(t), 8),
      Optional(t.description, 4), Optional(t.duration, 4) + (Optional(t.size, 4) + Optional(t.sampleFlags, 4)));
    AtSplit(v, q, Optional(t.duration, 4), Optional(t.size, 4) + Optional(t.sampleFlags, 4));
    AtSplit(v, q + Flag(t.duration.Some?, 4), Optional(t.size, 4), Optional(t.sampleFlags, 4));
    GetsBack(v, p, Word(t.version, TfhdFlags(t)), 4);
    GetsBack(v, p + 4, t.track, 4);
    OptionalReads(v, p + 8, BaseField(t), 8);
    OptionalReads(v, q + Flag(t.duration.Some?, 4), t.size, 4);
  }

  lemma TfhdReadsBack(v: seq<byte>, p: int, t: Traf, track: nat)
    requires TfhdOk(t) && At(v, p, WriteTfhd(t))
    ensures TfhdAt(v, p, track) == Some(if t.track == track then Own(t.base, t.size) else Foreign)
  {
    TfhdParts(v, p, t);
    var f := TfhdFlagsRead(t);
    hide At, Get, WriteTfhd, TfhdFlags, Word, Bit, Flag;
  }
}
