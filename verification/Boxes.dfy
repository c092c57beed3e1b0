/** Walking the boxes of an MP4 (`children` in web/src/extractAudio.ts) and writing them (section 4.2
    of ISO/IEC 14496-12), each the other's inverse. */
module Boxes {
  import opened Options
  import opened Bytes

  datatype Box = Box(kind: seq<byte>, start: int, end: int)

  /** A box header: how long the header is and how long it says the box is. */
  datatype Head = Head(header: int, size: int)

  /** The header at the front of `rest`, in a parent with `room` bytes left. None is the `RangeError`
      of a read past the end of the buffer. Sizes past 2^53 lose precision in the source, but then
      lie past the parent's end either way. */
  function HeadOf(rest: seq<byte>, room: int): (h: Option<Head>)
    ensures h.Some? ==> h.value.header == 8 || h.value.header == 16
  {
    if |rest| < 4 then None
    else
      var size := FromBigEndian(rest[..4]);
      if size == 1 then
        if |rest| < 16 then None else Some(Head(16, FromBigEndian(rest[8..16])))
      else if size == 0 then Some(Head(8, room))
      else Some(Head(8, size))
  }

  predicate Fits(h: Head, room: int) { h.header <= h.size <= room }

  function Tail(v: seq<byte>, n: nat): seq<byte> { if n <= |v| then v[n..] else [] }

  /** The boxes at the front of `rest`, which stands at `off` in the buffer, until `room` is used up
      or a header does not fit. */
  function Walk(rest: seq<byte>, room: int, off: int): Option<seq<Box>>
    decreases room
  {
    if room < 8 then Some([])
    else
      var h := HeadOf(rest, room);
      if h.None? then None
      else if !Fits(h.value, room) then Some([])
      else if |rest| < 8 then None
      else
        After([Box(rest[4..8], off + h.value.header, off + h.value.size)],
              Walk(Tail(rest, h.value.size), room - h.value.size, off + h.value.size))
  }

  function After(out: seq<Box>, more: Option<seq<Box>>): Option<seq<Box>> {
    if more.None? then None else Some(out + more.value)
  }

  lemma AfterAfter(out: seq<Box>, b: seq<Box>, more: Option<seq<Box>>)
    ensures After(out + b, more) == After(out, After(b, more))
    ensures After([], more) == more && After(out, Some([])) == Some(out) && After(out, None) == None
  {
    if more.Some? {
      assert out + b + more.value == out + (b + more.value);
      assert [] + more.value == more.value;
    }
    assert out + [] == out;
  }

  lemma TailOfTail(v: seq<byte>, off: nat, n: nat)
    ensures Tail(Tail(v, off), n) == Tail(v, off + n)
  {
  }

  lemma TailSlice(v: seq<byte>, off: nat, a: nat, b: nat)
    requires a <= b && off + b <= |v|
    ensures v[off + a..off + b] == Tail(v, off)[a..b]
    ensures a == 0 ==> v[off..off + b] == Tail(v, off)[..b]
  {
  }

  /** The first half of a turn in `children`: the size field at `off`. */
  method ReadHead(v: seq<byte>, off: nat, end: int) returns (h: Option<Head>)
    ensures h == HeadOf(Tail(v, off), end - off)
  {
    if off + 4 > |v| {
      return None;
    }
    TailSlice(v, off, 0, 4);
    var size := FromBigEndian(v[off..off + 4]);
    var header := 8;
    if size == 1 {
      if off + 16 > |v| {
        return None;
      }
      TailSlice(v, off, 8, 16);
      size := FromBigEndian(v[off + 8..off + 16]);
      header := 16;
    } else if size == 0 {
      size := end - off;
    }
    h := Some(Head(header, size));
  }

  lemma WalkAt(v: seq<byte>, off: nat, end: int, h: Option<Head>)
    requires h == HeadOf(Tail(v, off), end - off)
    ensures var here := Walk(Tail(v, off), end - off, off);
      if off + 8 > end then here == Some([])
      else if h.None? then here == None
      else if !Fits(h.value, end - off) then here == Some([])
      else if off + 8 > |v| then here == None
      else
        var next := off + h.value.size;
        here == After([Box(v[off + 4..off + 8], off + h.value.header, next)], Walk(Tail(v, next), end - next, next))
  {
    if off + 8 <= end && h.Some? && Fits(h.value, end - off) && off + 8 <= |v| {
      TailSlice(v, off, 4, 8);
      TailOfTail(v, off, h.value.size);
      assert end - off - h.value.size == end - (off + h.value.size);
    }
  }

  /** `children` as the source writes it, on offsets into the buffer. */
  method Children(v: seq<byte>, start: nat, end: int) returns (r: Option<seq<Box>>)
    ensures r == Walk(Tail(v, start), end - start, start)
  {
    hide Walk, HeadOf, Tail, After;
    var out: seq<Box> := [];
    var off: nat := start;
    AfterAfter([], [], Walk(Tail(v, start), end - start, start));
    while off + 8 <= end
      invariant Walk(Tail(v, start), end - start, start) == After(out, Walk(Tail(v, off), end - off, off))
      decreases end - off
    {
      var h := ReadHead(v, off, end);
      WalkAt(v, off, end, h);
      AfterAfter(out, [], None);
      if h.None? {
        return None;
      }
      var Head(header, size) := h.value;
      if size < header || off + size > end {
        return Some(out);
      }
      if off + 8 > |v| {
        return None;
      }
      var box := Box(v[off + 4..off + 8], off + header, off + size);
      AfterAfter(out, [box], Walk(Tail(v, off + size), end - (off + size), off + size));
      out := out + [box];
      off := off + size;
    }
    WalkAt(v, off, end, HeadOf(Tail(v, off), end - off));
    AfterAfter(out, [], None);
    r := Some(out);
  }

  // ---- writing ---------------------------------------------------------------------------

  datatype Form = Compact | Large | ToEnd
  datatype Item = Item(kind: seq<byte>, payload: seq<byte>, form: Form)

  function HeaderLength(form: Form): int { if form.Large? then 16 else 8 }

  predicate Sized(i: Item) {
    && |i.kind| == 4
    && (i.form.Compact? ==> 8 + |i.payload| < 0x1_0000_0000)
    && (i.form.Large? ==> 16 + |i.payload| < 0x1_0000_0000_0000_0000)
  }

  function SizeField(i: Item): nat {
    if i.form.Compact? then 8 + |i.payload| else if i.form.Large? then 1 else 0
  }

  function Header(i: Item): (r: seq<byte>)
    ensures |i.kind| == 4 ==> |r| == HeaderLength(i.form)
  {
    BigEndian(SizeField(i), 4) + i.kind + if i.form.Large? then BigEndian(16 + |i.payload|, 8) else []
  }

  function Write(i: Item): (r: seq<byte>)
    ensures |i.kind| == 4 ==> |r| == HeaderLength(i.form) + |i.payload|
  {
    Header(i) + i.payload
  }

  /** Each size fits its field, and a box whose size runs to the end is the last one. */
  predicate Writable(items: seq<Item>) {
    && (forall k :: 0 <= k < |items| ==> Sized(items[k]))
    && (forall k :: 0 <= k < |items| - 1 ==> !items[k].form.ToEnd?)
  }

  function WriteAll(items: seq<Item>): seq<byte> {
    if items == [] then [] else Write(items[0]) + WriteAll(items[1..])
  }

  /** Where the written boxes lie. */
  function Layout(items: seq<Item>, at: int): (r: seq<Box>)
    ensures |r| == |items|
  {
    if items == [] then []
    else
      var header, payload := HeaderLength(items[0].form), |items[0].payload|;
      [Box(items[0].kind, at + header, at + header + payload)] + Layout(items[1..], at + header + payload)
  }

  /** Reading the header of a written box. */
  lemma HeadOfWritten(i: Item, tail: seq<byte>, room: int)
    requires Sized(i) && (i.form.ToEnd? ==> room == |Write(i)|)
    ensures HeadOf(Write(i) + tail, room) == Some(Head(HeaderLength(i.form), |Write(i)|))
    ensures (Write(i) + tail)[4..8] == i.kind
  {
    var rest := Write(i) + tail;
    assert rest[..4] == BigEndian(SizeField(i), 4);
    Widths();
    ReadsBack(SizeField(i), 4);
    if i.form.Large? {
      assert rest[8..16] == BigEndian(16 + |i.payload|, 8);
      ReadsBack(16 + |i.payload|, 8);
    }
  }

  /** One written box in front: the walk yields it and goes on behind it. */
  lemma WalkStep(i: Item, tail: seq<byte>, room: int, off: int)
    requires Sized(i) && |Write(i)| <= room && (i.form.ToEnd? ==> room == |Write(i)|)
    ensures var n := |Write(i)|;
      Walk(Write(i) + tail, room, off) ==
        After([Box(i.kind, off + HeaderLength(i.form), off + n)], Walk(tail, room - n, off + n))
  {
    HeadOfWritten(i, tail, room);
    assert Tail(Write(i) + tail, |Write(i)|) == tail;
  }

  lemma FirstOf(items: seq<Item>, off: int)
    requires Writable(items) && items != []
    ensures var i, more := items[0], items[1..];
      && Sized(i) && Writable(more) && (i.form.ToEnd? ==> WriteAll(more) == []) && WriteAll(items) == Write(i) + WriteAll(more)
      && Layout(items, off) ==
           [Box(i.kind, off + HeaderLength(i.form), off + |Write(i)|)] + Layout(more, off + |Write(i)|)
  {
  }

  lemma WriteParts(i: Item, before: seq<byte>, after: seq<byte>)
    requires |i.kind| == 4
    ensures |i.payload| <= |Write(i)| && Write(i)[|Write(i)| - |i.payload|..] == i.payload
    ensures before + (Write(i) + after) == before + Write(i) + after
  {
  }

  /** The first of some written boxes: its bytes, what follows them, and where it lies. */
  lemma FirstWalked(items: seq<Item>, tail: seq<byte>, room: int, off: int)
    returns (w: seq<byte>, rest: seq<byte>, b: Box)
    requires Writable(items) && items != [] && room == |WriteAll(items)|
    ensures w == Write(items[0]) && rest == WriteAll(items[1..]) + tail
    ensures WriteAll(items) + tail == w + rest && room - |w| == |WriteAll(items[1..])|
    ensures Walk(WriteAll(items) + tail, room, off) == After([b], Walk(rest, room - |w|, off + |w|))
    ensures Layout(items, off) == [b] + Layout(items[1..], off + |w|)
    ensures off + |w| == b.end && b.start == b.end - |items[0].payload|
  {
    hide Walk, After, Write, WriteAll, Writable, Layout;
    var i := items[0];
    w, rest := Write(i), WriteAll(items[1..]) + tail;
    b := Box(i.kind, off + HeaderLength(i.form), off + |w|);
    FirstOf(items, off);
    assert WriteAll(items) + tail == w + rest by {
      assert (w + WriteAll(items[1..])) + tail == w + (WriteAll(items[1..]) + tail);
    }
    WalkStep(i, rest, room, off);
  }

  /** `children` inverts writing: any list of boxes, with 32-bit, 64-bit or to-the-end sizes, is read
      back exactly, wherever it stands and whatever follows. */
  lemma {:induction false} WalkInvertsWriting(items: seq<Item>, tail: seq<byte>, room: int, off: int)
    requires Writable(items) && room == |WriteAll(items)|
    ensures Walk(WriteAll(items) + tail, room, off) == Some(Layout(items, off))
    decreases |items|
  {
    hide HeadOf, Tail, Write;
    if items == [] {
      assert WriteAll(items) + tail == tail;
    } else {
      var w, rest, b := FirstWalked(items, tail, room, off);
      WalkInvertsWriting(items[1..], tail, room - |w|, off + |w|);
    }
  }

  /** And the payload each box points at is the one written. */
  lemma {:induction false} PayloadsWritten(before: seq<byte>, items: seq<Item>, tail: seq<byte>, k: nat)
    requires Writable(items) && k < |items|
    ensures var v, b := before + WriteAll(items) + tail, Layout(items, |before|)[k];
      0 <= b.start <= b.end <= |v| && v[b.start..b.end] == items[k].payload
    decreases |items|
  {
    hide Walk, Write, WriteAll;
    var w, rest, b := FirstWalked(items, tail, |WriteAll(items)|, |before|);
    WriteParts(items[0], before, rest);
    assert before + WriteAll(items) + tail == before + (w + rest);
    if k == 0 {
      PayloadAtEnd(before, w, rest, items[0].payload);
    } else {
      assert before + w + rest == (before + w) + WriteAll(items[1..]) + tail;
      PayloadsWritten(before + w, items[1..], tail, k - 1);
    }
  }

  lemma PayloadAtEnd(a: seq<byte>, w: seq<byte>, c: seq<byte>, payload: seq<byte>)
    requires |payload| <= |w| && w[|w| - |payload|..] == payload
    ensures (a + w + c)[|a| + |w| - |payload|..|a| + |w|] == payload
  {
  }

  // ---- any bytes -------------------------------------------------------------------------

  /** A header that fits is that of a box as it would be written. */
  lemma WrittenAt(rest: seq<byte>, room: int) returns (i: Item)
    requires 8 <= room <= |rest| && HeadOf(rest, room).Some? && Fits(HeadOf(rest, room).value, room)
    ensures Sized(i) && |Write(i)| <= room && (i.form.ToEnd? ==> room == |Write(i)|)
    ensures HeadOf(rest, room).value.size == |Write(i)| && rest == Write(i) + rest[|Write(i)|..]
  {
    hide FromBigEndian, BigEndian;
    var h := HeadOf(rest, room).value;
    var size := FromBigEndian(rest[..4]);
    i := Item(rest[4..8], rest[h.header..h.size], if size == 1 then Large else if size == 0 then ToEnd else Compact);
    Widths();
    WritesBack(rest[..4]);
    FromBigEndianRange(rest[..4]);
    if size == 1 {
      FromBigEndianRange(rest[8..16]);
      WritesBack(rest[8..16]);
    }
    assert Header(i) == rest[..h.header];
    assert rest == rest[..h.header] + rest[h.header..h.size] + rest[h.size..];
  }

  /** On any bytes the walk ends; and whatever it returns is a list of boxes as they would be
      written, one directly after the other from the start, inside the parent. It stops before the
      parent's end only for less than a header or for a header that does not fit. */
  lemma {:induction false} WalkIsWritten(rest: seq<byte>, room: int, off: int) returns (items: seq<Item>, left: seq<byte>)
    requires room <= |rest| && Walk(rest, room, off).Some?
    ensures Writable(items) && Walk(rest, room, off) == Some(Layout(items, off))
    ensures rest == WriteAll(items) + left && (items == [] || |WriteAll(items)| <= room)
    ensures var r := room - |WriteAll(items)|; r < 8 || (HeadOf(left, r).Some? && !Fits(HeadOf(left, r).value, r))
    decreases room
  {
    hide HeadOf, Tail, Write;
    if room < 8 || !Fits(HeadOf(rest, room).value, room) {
      items, left := [], rest;
    } else {
      var i := WrittenAt(rest, room);
      var n := |Write(i)|;
      WalkStep(i, rest[n..], room, off);
      var more;
      more, left := WalkIsWritten(rest[n..], room - n, off + n);
      items := OneMore(i, more, left, off);
    }
  }

  lemma OneMore(i: Item, more: seq<Item>, left: seq<byte>, off: int) returns (items: seq<Item>)
    requires Sized(i) && Writable(more) && (i.form.ToEnd? ==> more == [])
    ensures items == [i] + more && Writable(items)
    ensures WriteAll(items) == Write(i) + WriteAll(more) && WriteAll(items) + left == Write(i) + (WriteAll(more) + left)
    ensures Layout(items, off) ==
      [Box(i.kind, off + HeaderLength(i.form), off + |Write(i)|)] + Layout(more, off + |Write(i)|)
  {
    hide Write;
    items := [i] + more;
    assert items[1..] == more;
  }

  /** Behind the boxes `items`, none of which runs to the end, stand the bytes `left`: the size field of
      a 64-bit box in what the parent has room for, and fewer than 16 bytes in all. */
  ghost predicate CutOff(rest: seq<byte>, room: int, items: seq<Item>, left: seq<byte>) {
    && Writable(items) && (forall k :: 0 <= k < |items| ==> !items[k].form.ToEnd?) && rest == WriteAll(items) + left
    && room - |WriteAll(items)| >= 8 && 8 <= |left| < 16 && FromBigEndian(left[..4]) == 1
  }

  /** Where the walk throws, it stands before such bytes. */
  lemma {:induction false} ThrowsBeforeCutOff(rest: seq<byte>, room: int, off: int) returns (items: seq<Item>, left: seq<byte>)
    requires 0 <= room <= |rest| && Walk(rest, room, off).None?
    ensures CutOff(rest, room, items, left)
    decreases room
  {
    hide FromBigEndian, Write;
    var h := HeadOf(rest, room);
    if h.None? {
      items, left := [], rest;
      assert WriteAll(items) + left == rest;
    } else {
      var i := WrittenAt(rest, room);
      var n := |Write(i)|;
      WalkStep(i, rest[n..], room, off);
      var more;
      more, left := ThrowsBeforeCutOff(rest[n..], room - n, off + n);
      items := OneMore(i, more, left, off);
    }
  }

  lemma {:induction false} CutOffThrows(rest: seq<byte>, room: int, off: int, items: seq<Item>, left: seq<byte>)
    requires 0 <= room <= |rest| && CutOff(rest, room, items, left)
    ensures Walk(rest, room, off).None?
    decreases |items|
  {
    hide *;
    if items == [] {
      CutOffHere(rest, room, off, left);
    } else {
      var i := items[0];
      var tail := CutOffTail(rest, room, items, left);
      WalkStep(i, tail, room, off);
      CutOffThrows(tail, room - |Write(i)|, off + |Write(i)|, items[1..], left);
      AfterAfter([Box(i.kind, off + HeaderLength(i.form), off + |Write(i)|)], [], None);
    }
  }

  lemma CutOffHere(rest: seq<byte>, room: int, off: int, left: seq<byte>)
    requires CutOff(rest, room, [], left)
    ensures Walk(rest, room, off).None?
  {
    hide FromBigEndian;
    assert WriteAll([]) + left == left;
  }

  lemma CutOffTail(rest: seq<byte>, room: int, items: seq<Item>, left: seq<byte>) returns (tail: seq<byte>)
    requires room <= |rest| && CutOff(rest, room, items, left) && items != []
    ensures var i := items[0];
      && Sized(i) && !i.form.ToEnd? && rest == Write(i) + tail && |Write(i)| <= room
      && room - |Write(i)| <= |tail| && CutOff(tail, room - |Write(i)|, items[1..], left)
  {
    hide FromBigEndian, Write;
    var w, more := Write(items[0]), WriteAll(items[1..]);
    tail := more + left;
    assert w + more + left == w + (more + left);
  }

  /** When the parent lies inside the buffer, the walk throws exactly if some boxes stand one behind
      the other, as they would be written, and then a header that says its size has 64 bits, with eight
      bytes or more to the parent's end and fewer than 16 to the buffer's. */
  lemma RangeErrorExactly(rest: seq<byte>, room: int, off: int)
    requires 0 <= room <= |rest|
    ensures Walk(rest, room, off).None? <==> exists items, left :: CutOff(rest, room, items, left)
  {
    hide Walk, CutOff;
    if Walk(rest, room, off).None? {
      var items, left := ThrowsBeforeCutOff(rest, room, off);
    }
    if items, left :| CutOff(rest, room, items, left) {
      CutOffThrows(rest, room, off, items, left);
    }
  }

  /** Eight bytes are enough: the size field, and a kind. */
  lemma ShortBoxThrows(kind: seq<byte>, off: int)
    requires |kind| == 4
    ensures Walk([0, 0, 0, 1] + kind, 8, off).None?
  {
    var rest := [0, 0, 0, 1] + kind;
    assert rest[..4] == [0, 0, 0, 1];
    var size: seq<byte> := [0, 0, 0, 1];
    assert size[..3][..2][..1][..0] == [];
    assert FromBigEndian(size[..3][..2][..1][..0]) == 0;
    assert FromBigEndian(size[..3][..2][..1]) == 0;
    assert FromBigEndian(size[..3][..2]) == 0;
    assert FromBigEndian(size[..3]) == 0;
    assert FromBigEndian(size) == 1;
  }
}
