/** The file's outermost boxes (`topLevel` in web/src/extractAudio.ts): unlike the walk inside a
    parent, it knows no end but the file's, lets a last box claim more than there is, and takes only
    names it can print. */
module TopLevel {
  import opened Options
  import opened Bytes
  import opened Boxes

  datatype TopBox = TopBox(kind: seq<byte>, offset: nat, header: int, size: nat)

  function FirstBoxes(): seq<seq<byte>> {
    [Ascii("ftyp"), Ascii("styp"), Ascii("wide"), Ascii("free"), Ascii("skip"), Ascii("mdat"), Ascii("moov"), Ascii("pnot")]
  }

  predicate Printable(kind: seq<byte>) { forall i :: 0 <= i < |kind| ==> 0x20 <= kind[i] <= 0x7e }

  /** The box whose header stands at the front of `rest`, `off` bytes into the file, or None where
      the walk stops. */
  function TopHead(rest: seq<byte>, off: nat): (b: Option<TopBox>)
    ensures b.Some? ==> b.value.size >= 8
  {
    if |rest| < 8 then None
    else
      var h := HeadOf(rest, |rest|);
      if h.None? || h.value.size < h.value.header || !Printable(rest[4..8]) then None
      else Some(TopBox(rest[4..8], off, h.value.header, h.value.size))
  }

  function TopWalk(rest: seq<byte>, off: nat): seq<TopBox>
    decreases |rest|
  {
    var b := TopHead(rest, off);
    if b.None? then [] else [b.value] + TopWalk(Tail(rest, b.value.size), off + b.value.size)
  }

  function TopLevel(file: seq<byte>): Option<seq<TopBox>> {
    var boxes := TopWalk(file, 0);
    if boxes == [] || boxes[0].kind !in FirstBoxes() then None else Some(boxes)
  }

  lemma TopHeadAt(file: seq<byte>, off: nat, h: Option<Head>)
    requires off + 8 <= |file| && h == HeadOf(Tail(file, off), |file| - off)
    ensures TopHead(Tail(file, off), off) ==
      if h.None? || h.value.size < h.value.header || !Printable(file[off + 4..off + 8]) then None
      else Some(TopBox(file[off + 4..off + 8], off, h.value.header, h.value.size))
  {
    TailSlice(file, off, 4, 8);
  }

  /** The walk as the source writes it, reading 16 bytes at a time. */
  method Walk(file: seq<byte>) returns (r: Option<seq<TopBox>>)
    ensures r == TopLevel(file)
  {
    hide HeadOf, FirstBoxes, Printable, TopHead, TopWalk, Tail;
    var out: seq<TopBox> := [];
    var off: nat := 0;
    WholeTail(file);
    while off + 8 <= |file|
      invariant out + TopWalk(Tail(file, off), off) == TopWalk(file, 0)
      invariant out != [] ==> out[0].kind in FirstBoxes()
      decreases |file| - off
    {
      var h := ReadHead(file, off, |file|);
      TopHeadAt(file, off, h);
      WalkOnce(Tail(file, off), off);
      if h.None? || h.value.size < h.value.header || !Printable(file[off + 4..off + 8]) {
        break;
      }
      var kind := file[off + 4..off + 8];
      if |out| == 0 && kind !in FirstBoxes() {
        return None;
      }
      HeadAhead(file, off);
      TailOfTail(file, off, h.value.size);
      var b := TopBox(kind, off, h.value.header, h.value.size);
      Regroup(out, b, TopWalk(Tail(file, off + h.value.size), off + h.value.size));
      out := out + [b];
      off := off + h.value.size;
    }
    if off + 8 > |file| {
      ShortTail(file, off);
    }
    WalkOnce(Tail(file, off), off);
    assert out + [] == out;
    r := if |out| > 0 then Some(out) else None;
  }

  lemma HeadAhead(file: seq<byte>, off: nat)
    ensures var h := HeadOf(Tail(file, off), |file| - off);
      h.Some? && h.value.size >= h.value.header ==> h.value.size >= 8
  {
  }

  lemma WholeTail(file: seq<byte>)
    ensures Tail(file, 0) == file
  {
  }

  lemma ShortTail(file: seq<byte>, off: nat)
    requires off + 8 > |file|
    ensures TopHead(Tail(file, off), off) == None
  {
  }

  lemma WalkOnce(rest: seq<byte>, off: nat)
    ensures var b := TopHead(rest, off);
      TopWalk(rest, off) == if b.None? then [] else [b.value] + TopWalk(Tail(rest, b.value.size), off + b.value.size)
  {
    hide TopHead, Tail;
  }

  lemma Regroup<T>(out: seq<T>, b: T, more: seq<T>)
    ensures out + ([b] + more) == out + [b] + more
  {
  }

  // ---- what it finds ---------------------------------------------------------------------

  function TopLayout(items: seq<Item>, at: nat): (r: seq<TopBox>)
    ensures |r| == |items|
  {
    if items == [] then []
    else
      var header := HeaderLength(items[0].form);
      [TopBox(items[0].kind, at, header, header + |items[0].payload|)]
        + TopLayout(items[1..], at + header + |items[0].payload|)
  }

  lemma TopStep(i: Item, tail: seq<byte>, off: nat)
    requires Sized(i) && Printable(i.kind) && (i.form.ToEnd? ==> tail == [])
    ensures TopWalk(Write(i) + tail, off) ==
      [TopBox(i.kind, off, HeaderLength(i.form), |Write(i)|)] + TopWalk(tail, off + |Write(i)|)
  {
    HeadOfWritten(i, tail, |Write(i) + tail|);
    hide HeadOf, Write;
    assert Tail(Write(i) + tail, |Write(i)|) == tail;
  }

  lemma FirstFound(items: seq<Item>, off: nat)
    requires Writable(items) && items != []
    ensures var i, more := items[0], items[1..];
      && TopLayout(items, off) ==
           [TopBox(i.kind, off, HeaderLength(i.form), |Write(i)|)] + TopLayout(more, off + |Write(i)|)
      && (i.form.ToEnd? ==> more == [] && items[|items| - 1] == i)
      && (more != [] ==> more[|more| - 1] == items[|items| - 1])
  {
  }

  /** Any boxes with printable names, written one after the other, are all found where they lie,
      with whatever follows them that is not the start of a box. */
  lemma {:induction false} WrittenIsFound(items: seq<Item>, tail: seq<byte>, off: nat)
    requires Writable(items) && (forall k :: 0 <= k < |items| ==> Printable(items[k].kind))
    requires (items != [] && items[|items| - 1].form.ToEnd? ==> tail == [])
    requires TopHead(tail, off + |WriteAll(items)|) == None
    ensures TopWalk(WriteAll(items) + tail, off) == TopLayout(items, off)
    decreases |items|
  {
    hide HeadOf, Write, Tail, Printable, TopHead;
    if items == [] {
      assert WriteAll(items) + tail == tail;
    } else {
      hide WriteAll, TopWalk, TopLayout, Writable, Layout;
      var i, more := items[0], items[1..];
      var w := Write(i);
      FirstOf(items, 0);
      FirstFound(items, off);
      assert WriteAll(items) + tail == w + (WriteAll(more) + tail);
      assert i.form.ToEnd? ==> WriteAll(more) + tail == [];
      TopStep(i, WriteAll(more) + tail, off);
      WrittenIsFound(more, tail, off + |w|);
    }
  }

  /** So a file of such boxes that starts with one a movie file can start with is taken, and all its
      boxes are listed; one that starts with another box is not. */
  lemma WrittenFile(items: seq<Item>, tail: seq<byte>)
    requires Writable(items) && (forall k :: 0 <= k < |items| ==> Printable(items[k].kind))
    requires items != [] && (items[|items| - 1].form.ToEnd? ==> tail == [])
    requires TopHead(tail, |WriteAll(items)|) == None
    ensures TopLevel(WriteAll(items) + tail) ==
      if items[0].kind in FirstBoxes() then Some(TopLayout(items, 0)) else None
  {
    WrittenIsFound(items, tail, 0);
  }

  /** Where the walk stops. */
  function StopOf(b: seq<TopBox>, off: nat): nat {
    if b == [] then off else b[|b| - 1].offset + b[|b| - 1].size
  }

  lemma HeadFacts(rest: seq<byte>, off: nat)
    requires TopHead(rest, off).Some?
    ensures var b := TopHead(rest, off).value;
      b.offset == off && b.size >= b.header && Printable(b.kind) && 8 <= |rest|
    ensures |Tail(rest, TopHead(rest, off).value.size)| < |rest|
    ensures |Tail(rest, TopHead(rest, off).value.size)| >= 8 ==>
      |Tail(rest, TopHead(rest, off).value.size)| == |rest| - TopHead(rest, off).value.size
  {
  }

  /** On any bytes the boxes found follow one another from the start; only the last can claim more
      than there is; and the walk stops only where less than a header is left or the header there
      makes no box. */
  lemma {:induction false} FoundInOrder(rest: seq<byte>, off: nat)
    ensures var b := TopWalk(rest, off);
      && (forall k :: 0 <= k < |b| ==> b[k].offset == (if k == 0 then off else b[k - 1].offset + b[k - 1].size))
      && (forall k :: 0 <= k < |b| ==> b[k].size >= b[k].header && Printable(b[k].kind))
      && (b != [] ==> b[|b| - 1].offset + 8 <= off + |rest|)
      && off <= StopOf(b, off) && TopHead(Tail(rest, StopOf(b, off) - off), StopOf(b, off)) == None
    decreases |rest|
  {
    hide TopHead, Tail, Printable;
    var h := TopHead(rest, off);
    WholeTail(rest);
    if h.None? {
    } else {
      var n := h.value.size;
      HeadFacts(rest, off);
      FoundInOrder(Tail(rest, n), off + n);
      var more := TopWalk(Tail(rest, n), off + n);
      TailOfTail(rest, n, StopOf(more, off + n) - off - n);
      if more != [] {
        WalkOnce(Tail(rest, n), off + n);
        HeadFacts(Tail(rest, n), off + n);
      }
    }
  }

  /** A header cut off inside a 64-bit size, at which `children` throws, ends this walk like any other
      trailing bytes. */
  lemma StopsAtCutOff(left: seq<byte>, room: int, off: nat)
    requires CutOff(left, room, [], left)
    ensures TopWalk(left, off) == [] && Boxes.Walk(left, room, off) == None
  {
    assert HeadOf(left, |left|).None? && HeadOf(left, room).None?;
  }
}
