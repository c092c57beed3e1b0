/** All runs of one movie fragment, read from its bytes (`fragmentRuns` in web/src/extractAudio.ts). */
module FragmentRuns {
  import opened Options
  import opened Bytes
  import opened Boxes
  import opened SampleTable
  import opened Fragments
  import opened FragmentBytes

  function TRAF(): seq<byte> { Ascii("traf") }
  function TFHD(): seq<byte> { Ascii("tfhd") }
  function TRUN(): seq<byte> { Ascii("trun") }

  // ---- reading ---------------------------------------------------------------------------

  /** The boxes in `[start, end)`. */
  function Kids(v: seq<byte>, start: int, end: int): Option<seq<Box>> {
    if start < 0 then None else Walk(Tail(v, start), end - start, start)
  }

  function FirstBox(boxes: seq<Box>, kind: seq<byte>): Option<Box> {
    if boxes == [] then None else if boxes[0].kind == kind then Some(boxes[0]) else FirstBox(boxes[1..], kind)
  }

  function TrunsFrom(v: seq<byte>, boxes: seq<Box>, p: Placed, base: int, default: nat): Option<Placed> {
    if boxes == [] then Some(p)
    else if boxes[0].kind != TRUN() then TrunsFrom(v, boxes[1..], p, base, default)
    else
      var t := TrunAt(v, boxes[0].start, default);
      if t.None? then None
      else TrunsFrom(v, boxes[1..], AddTrun(p, base, t.value.dataOffset, t.value.sizes), base, default)
  }

  /** One track fragment, added to what was found before it. */
  function TrafFrom(v: seq<byte>, box: Box, p: Placed, track: nat, moof: int, default: nat): Option<Placed> {
    var kids := Kids(v, box.start, box.end);
    if kids.None? then None
    else
      var tfhd := FirstBox(kids.value, TFHD());
      if tfhd.None? then Some(p)
      else
        var h := TfhdAt(v, tfhd.value.start, track);
        if h.None? then None
        else if h.value.Foreign? then Some(p)
        else
          var base := BaseOf(h.value.base, ImplicitBase(p, moof), moof);
          var here := TrunsFrom(v, kids.value, Placed([], base), base, if h.value.size.Some? then h.value.size.value else default);
          if here.None? then None else Some(AddTraf(p, here.value))
  }

  function TrafsFrom(v: seq<byte>, boxes: seq<Box>, p: Placed, track: nat, moof: int, default: nat): Option<Placed> {
    if boxes == [] then Some(p)
    else if boxes[0].kind != TRAF() then TrafsFrom(v, boxes[1..], p, track, moof, default)
    else
      var next := TrafFrom(v, boxes[0], p, track, moof, default);
      if next.None? then None else TrafsFrom(v, boxes[1..], next.value, track, moof, default)
  }

  /** The fragment `v`, whose own header is `header` bytes long and which ends at `end`. */
  function MoofAt(v: seq<byte>, header: nat, end: int, track: nat, moof: int, default: nat): Option<Placed> {
    var boxes := Kids(v, header, end);
    if boxes.None? then None else TrafsFrom(v, boxes.value, Placed([], 0), track, moof, default)
  }

  lemma {:induction false} WalkStarts(rest: seq<byte>, room: int, off: nat)
    requires Walk(rest, room, off).Some?
    ensures forall b :: b in Walk(rest, room, off).value ==> b.start >= 0
    decreases room
  {
    hide HeadOf, Tail;
    if room >= 8 && Fits(HeadOf(rest, room).value, room) {
      var n := HeadOf(rest, room).value.size;
      WalkStarts(Tail(rest, n), room - n, off + n);
    }
  }

  /** `children`, with the fact that no box starts before the buffer. */
  method ReadKids(v: seq<byte>, start: nat, end: int) returns (r: Option<seq<Box>>)
    ensures r == Kids(v, start, end)
    ensures r.Some? ==> forall b :: b in r.value ==> b.start >= 0
  {
    if end < start {
      r := Some([]);
      WalkNothing(v, start, end);
    } else {
      r := Children(v, start, end);
    }
    if r.Some? {
      WalkStarts(Tail(v, start), end - start, start);
    }
  }

  lemma WalkNothing(v: seq<byte>, start: nat, end: int)
    requires end < start
    ensures Kids(v, start, end) == Some([])
  {
  }

  method ReadTruns(v: seq<byte>, boxes: seq<Box>, base: int, default: nat) returns (r: Option<Placed>)
    ensures r == TrunsFrom(v, boxes, Placed([], base), base, default)
  {
    hide TrunAt, AddRun;
    var runs: seq<Run>, next := [], base;
    for i := 0 to |boxes|
      invariant TrunsFrom(v, boxes[i..], Placed(runs, next), base, default) == TrunsFrom(v, boxes, Placed([], base), base, default)
    {
      assert boxes[i..][1..] == boxes[i + 1..];
      if boxes[i].kind == TRUN() {
        var t := ReadTrun(v, boxes[i].start, default);
        if t.None? {
          return None;
        }
        var p := AddTrun(Placed(runs, next), base, t.value.dataOffset, t.value.sizes);
        runs, next := p.runs, p.next;
      }
    }
    r := Some(Placed(runs, next));
  }

  method ReadTraf(v: seq<byte>, box: Box, p: Placed, track: nat, moof: int, default: nat) returns (r: Option<Placed>)
    requires box.start >= 0
    ensures r == TrafFrom(v, box, p, track, moof, default)
  {
    hide Kids, TfhdAt, TrunsFrom;
    var kids := ReadKids(v, box.start, box.end);
    if kids.None? {
      return None;
    }
    var tfhd := FirstBox(kids.value, TFHD());
    if tfhd.None? {
      return Some(p);
    }
    var h := ReadTfhd(v, tfhd.value.start, track);
    if h.None? {
      return None;
    }
    if h.value.Foreign? {
      return Some(p);
    }
    var base := if p.next != 0 then p.next else moof;
    if h.value.base.Explicit? {
      base := h.value.base.at;
    } else if h.value.base.Moof? {
      base := moof;
    }
    var size := if h.value.size.Some? then h.value.size.value else default;
    var here := ReadTruns(v, kids.value, base, size);
    r := if here.None? then None else Some(Placed(p.runs + here.value.runs, here.value.next));
  }

  /** `fragmentRuns` over one movie fragment. */
  method ReadMoof(v: seq<byte>, header: nat, end: int, track: nat, moof: int, default: nat) returns (r: Option<Placed>)
    ensures r == MoofAt(v, header, end, track, moof, default)
  {
    hide Kids, TrafFrom;
    var boxes := ReadKids(v, header, end);
    if boxes.None? {
      return None;
    }
    var p := Placed([], 0);
    for i := 0 to |boxes.value|
      invariant TrafsFrom(v, boxes.value[i..], p, track, moof, default) == MoofAt(v, header, end, track, moof, default)
    {
      assert boxes.value[i..][1..] == boxes.value[i + 1..];
      if boxes.value[i].kind == TRAF() {
        var next := ReadTraf(v, boxes.value[i], p, track, moof, default);
        if next.None? {
          return None;
        }
        p := next.value;
      }
    }
    r := Some(p);
  }

  // ---- writing ---------------------------------------------------------------------------

  function TrunItem(e: Entry<Trun>): Item {
    match e case Known(form, t) => Item(TRUN(), WriteTrun(t), form) case Plain(form, kind, payload) => Item(kind, payload, form)
  }

  function TrunItems(entries: seq<Entry<Trun>>): (r: seq<Item>)
    ensures |r| == |entries| && forall k :: 0 <= k < |entries| ==> r[k] == TrunItem(entries[k])
  {
    seq(|entries|, i requires 0 <= i < |entries| => TrunItem(entries[i]))
  }

  function TfhdItem(t: Traf): Item { Item(TFHD(), WriteTfhd(t), t.header) }

  /** The header comes first, as section 8.8.7 has it. */
  function WriteTraf(t: Traf): seq<byte> { WriteAll([TfhdItem(t)] + TrunItems(t.entries)) }

  function TrafItem(e: Entry<Traf>): Item {
    match e case Known(form, t) => Item(TRAF(), WriteTraf(t), form) case Plain(form, kind, payload) => Item(kind, payload, form)
  }

  function TrafItems(entries: seq<Entry<Traf>>): (r: seq<Item>)
    ensures |r| == |entries| && forall k :: 0 <= k < |entries| ==> r[k] == TrafItem(entries[k])
  {
    seq(|entries|, i requires 0 <= i < |entries| => TrafItem(entries[i]))
  }

  /** Every field fits, and a plain box is of another kind. */
  predicate TrunEntryOk(e: Entry<Trun>) {
    Sized(TrunItem(e)) && match e case Known(_, t) => TrunOk(t) case Plain(_, kind, _) => kind != TRUN()
  }

  predicate TrunsOk(entries: seq<Entry<Trun>>) {
    (forall i :: 0 <= i < |entries| ==> TrunEntryOk(entries[i])) && OnlyLastToEnd(entries)
  }

  /** A box whose size runs to the end of its parent is the last one. */
  predicate OnlyLastToEnd<T>(entries: seq<Entry<T>>) { forall i :: 0 <= i < |entries| - 1 ==> !entries[i].form.ToEnd? }

  predicate TrafOk(t: Traf) {
    TfhdOk(t) && Sized(TfhdItem(t)) && TrunsOk(t.entries) && (t.entries != [] ==> !t.header.ToEnd?)
  }

  predicate TrafEntryOk(e: Entry<Traf>) {
    Sized(TrafItem(e)) && match e
      case Known(_, t) => TrafOk(t)
      case Plain(_, kind, _) => kind != TRAF()
  }

  predicate TrafsOk(entries: seq<Entry<Traf>>) {
    (forall i :: 0 <= i < |entries| ==> TrafEntryOk(entries[i])) && OnlyLastToEnd(entries)
  }

  // ---- reading what was written ----------------------------------------------------------

  lemma KidsRead(v: seq<byte>, p: int, items: seq<Item>)
    requires Writable(items) && At(v, p, WriteAll(items))
    ensures Kids(v, p, p + |WriteAll(items)|) == Some(Layout(items, p))
  {
    var text := WriteAll(items);
    hide WriteAll, Walk, Layout, Writable;
    assert v[p..] == text + v[p + |text|..];
    WalkInvertsWriting(items, v[p + |text|..], |text|, p);
  }

  /** The first of some written boxes, and the rest of them. */
  lemma FirstAt(v: seq<byte>, p: int, items: seq<Item>) returns (b: Box, q: int)
    requires items != [] && Sized(items[0]) && At(v, p, WriteAll(items))
    ensures b.kind == items[0].kind && At(v, b.start, items[0].payload) && b.end == b.start + |items[0].payload|
    ensures Layout(items, p) == [b] + Layout(items[1..], q) && At(v, q, WriteAll(items[1..]))
  {
    var i := items[0];
    var header := HeaderLength(i.form);
    b, q := Box(i.kind, p + header, p + header + |i.payload|), p + header + |i.payload|;
    FirstText(items, p);
    hide At, Write, Header, WriteAll, Layout, HeaderLength;
    AtSplit(v, p, Write(i), WriteAll(items[1..]));
    AtSplit(v, p, Header(i), i.payload);
  }

  lemma FirstText(items: seq<Item>, p: int)
    requires items != [] && Sized(items[0])
    ensures var i, header := items[0], HeaderLength(items[0].form);
      && WriteAll(items) == Write(i) + WriteAll(items[1..]) && Write(i) == Header(i) + i.payload && |Header(i)| == header
      && Layout(items, p) == [Box(i.kind, p + header, p + header + |i.payload|)] + Layout(items[1..], p + header + |i.payload|)
  {
  }

  lemma {:induction false} TrunsReadBack(v: seq<byte>, at: int, entries: seq<Entry<Trun>>, done: seq<Entry<Trun>>,
      base: int, default: nat)
    requires TrunsOk(entries) && At(v, at, WriteAll(TrunItems(entries)))
    ensures TrunsFrom(v, Layout(TrunItems(entries), at), PlaceTruns(done, base, default), base, default) ==
      Some(PlaceTruns(done + entries, base, default))
    decreases |entries|
  {
    hide At, WriteAll, Layout, TrunItems, PlaceTruns, TrunEntryOk, TrunItem, TrunsFrom, TrunsOk;
    if entries == [] {
      TrunsEnd(v, at, PlaceTruns(done, base, default), base, default);
      assert done + entries == done;
    } else {
      var e, more := entries[0], entries[1..];
      FirstTrun(entries);
      var b, q := FirstAt(v, at, TrunItems(entries));
      TrunStep(v, b, Layout(TrunItems(more), q), e, done, base, default);
      assert (done + [e]) + more == done + entries;
      TrunsReadBack(v, q, more, done + [e], base, default);
    }
  }

  lemma TrunsEnd(v: seq<byte>, at: int, p: Placed, base: int, default: nat)
    ensures TrunsFrom(v, Layout(TrunItems([]), at), p, base, default) == Some(p)
  {
    assert TrunItems([]) == [];
  }

  lemma FirstTrun(entries: seq<Entry<Trun>>)
    requires TrunsOk(entries) && entries != []
    ensures TrunEntryOk(entries[0]) && TrunsOk(entries[1..])
    ensures TrunItems(entries) != [] && TrunItems(entries)[0] == TrunItem(entries[0])
    ensures TrunItems(entries)[1..] == TrunItems(entries[1..])
    ensures Sized(TrunItem(entries[0]))
  {
    TrunItemOk(entries[0]);
    hide TrunEntryOk, TrunItem, Sized;
  }

  lemma TrunStep(v: seq<byte>, b: Box, rest: seq<Box>, e: Entry<Trun>, done: seq<Entry<Trun>>, base: int, default: nat)
    requires TrunEntryOk(e) && b.kind == TrunItem(e).kind && At(v, b.start, TrunItem(e).payload)
    ensures TrunsFrom(v, [b] + rest, PlaceTruns(done, base, default), base, default) ==
      TrunsFrom(v, rest, PlaceTruns(done + [e], base, default), base, default)
  {
    if e.Known? {
      TrunReadsBack(v, b.start, e.value, default);
    }
    PlaceTrunsSnoc(done, e, base, default);
    hide At, WriteTrun, TrunAt, PlaceTruns, SizesOf, AddRun, Sized;
    assert ([b] + rest)[1..] == rest;
  }

  lemma PlaceTrunsSnoc(done: seq<Entry<Trun>>, e: Entry<Trun>, base: int, default: nat)
    ensures PlaceTruns(done + [e], base, default) ==
      var before := PlaceTruns(done, base, default);
      if e.Plain? then before else AddTrun(before, base, e.value.dataOffset, SizesOf(e.value, default))
  {
    assert (done + [e])[..|done|] == done;
  }

  lemma KindsDiffer()
    ensures TFHD() != TRUN() && |TFHD()| == 4 && |TRUN()| == 4 && |TRAF()| == 4
  {
    assert TFHD()[1] != TRUN()[1];
  }

  lemma TrunItemOk(e: Entry<Trun>)
    requires TrunEntryOk(e)
    ensures Sized(TrunItem(e)) && TrunItem(e).form == e.form
  {
  }

  lemma TrunItemsWritable(entries: seq<Entry<Trun>>)
    requires TrunsOk(entries)
    ensures Writable(TrunItems(entries))
  {
    forall k | 0 <= k < |entries| ensures Sized(TrunItems(entries)[k]) && TrunItems(entries)[k].form == entries[k].form {
      TrunItemOk(entries[k]);
    }
    hide TrunEntryOk, TrunItem, Sized;
  }

  lemma WritableFront(i: Item, more: seq<Item>)
    requires Sized(i) && (more != [] ==> !i.form.ToEnd?) && Writable(more)
    ensures Writable([i] + more)
  {
    hide Sized;
  }

  /** The boxes in a written track fragment: its header, and then its entries. */
  lemma TrafKids(v: seq<byte>, b: Box, t: Traf) returns (h: Box, q: int)
    requires TrafOk(t) && At(v, b.start, WriteTraf(t)) && b.end == b.start + |WriteTraf(t)|
    ensures Kids(v, b.start, b.end) == Some([h] + Layout(TrunItems(t.entries), q))
    ensures h.kind == TFHD() && At(v, h.start, WriteTfhd(t)) && At(v, q, WriteAll(TrunItems(t.entries)))
  {
    hide WriteAll, At, Layout, Kids, WriteTfhd, TrunItems, Writable, TrafOk, TrunsOk, TfhdOk;
    TrafParts(t);
    var items := [TfhdItem(t)] + TrunItems(t.entries);
    TrunItemsWritable(t.entries);
    assert items[1..] == TrunItems(t.entries);
    WritableFront(TfhdItem(t), TrunItems(t.entries));
    KidsRead(v, b.start, items);
    h, q := FirstAt(v, b.start, items);
  }

  lemma TrunsSkip(v: seq<byte>, h: Box, rest: seq<Box>, p: Placed, base: int, default: nat)
    requires h.kind == TFHD()
    ensures TrunsFrom(v, [h] + rest, p, base, default) == TrunsFrom(v, rest, p, base, default)
    ensures FirstBox([h] + rest, TFHD()) == Some(h)
  {
    KindsDiffer();
    assert ([h] + rest)[1..] == rest;
  }

  lemma TrafReadsBack(v: seq<byte>, b: Box, t: Traf, p: Placed, track: nat, moof: int, default: nat)
    requires TrafOk(t) && At(v, b.start, WriteTraf(t)) && b.end == b.start + |WriteTraf(t)|
    ensures TrafFrom(v, b, p, track, moof, default) ==
      Some(if t.track != track then p else AddTraf(p, PlaceTraf(t, ImplicitBase(p, moof), moof, default)))
  {
    TrafParts(t);
    hide At, Kids, TfhdAt, TrunsFrom, WriteTraf, TrunItems, Layout, TrafOk, FirstBox, TrunsOk, PlaceTruns, TfhdOk, BaseOf,
      ImplicitBase, AddTraf, TFHD, WriteTfhd;
    var h, q := TrafKids(v, b, t);
    TfhdReadsBack(v, h.start, t, track);
    TrunsBehind(v, h, q, t, BaseOf(t.base, ImplicitBase(p, moof), moof), if t.size.Some? then t.size.value else default);
  }

  lemma TrunsBehind(v: seq<byte>, h: Box, q: int, t: Traf, base: int, size: nat)
    requires TrunsOk(t.entries) && h.kind == TFHD() && At(v, q, WriteAll(TrunItems(t.entries)))
    ensures var kids := [h] + Layout(TrunItems(t.entries), q);
      && FirstBox(kids, TFHD()) == Some(h)
      && TrunsFrom(v, kids, Placed([], base), base, size) == Some(PlaceTruns(t.entries, base, size))
  {
    hide At, TrunsFrom, WriteAll, TrunItems, Layout, FirstBox, TrunsOk, PlaceTruns, TFHD;
    TrunsSkip(v, h, Layout(TrunItems(t.entries), q), Placed([], base), base, size);
    NoTruns(base, size);
    TrunsReadBack(v, q, t.entries, [], base, size);
    assert [] + t.entries == t.entries;
  }

  lemma NoTruns(base: int, default: nat)
    ensures PlaceTruns([], base, default) == Placed([], base)
  {
  }

  lemma TrafParts(t: Traf)
    requires TrafOk(t)
    ensures TfhdOk(t) && Sized(TfhdItem(t)) && TrunsOk(t.entries) && (t.entries != [] ==> !t.header.ToEnd?)
  {
  }

  lemma PlaceMoofSnoc(done: seq<Entry<Traf>>, e: Entry<Traf>, track: nat, moof: int, default: nat)
    ensures PlaceMoof(done + [e], track, moof, default) ==
      var before := PlaceMoof(done, track, moof, default);
      if e.Plain? || e.value.track != track then before
      else AddTraf(before, PlaceTraf(e.value, ImplicitBase(before, moof), moof, default))
  {
    assert (done + [e])[..|done|] == done;
  }

  lemma TrafStep(v: seq<byte>, b: Box, rest: seq<Box>, e: Entry<Traf>, done: seq<Entry<Traf>>,
      track: nat, moof: int, default: nat)
    requires TrafEntryOk(e) && b.kind == TrafItem(e).kind && At(v, b.start, TrafItem(e).payload)
    requires b.end == b.start + |TrafItem(e).payload|
    ensures TrafsFrom(v, [b] + rest, PlaceMoof(done, track, moof, default), track, moof, default) ==
      TrafsFrom(v, rest, PlaceMoof(done + [e], track, moof, default), track, moof, default)
  {
    if e.Known? {
      TrafReadsBack(v, b, e.value, PlaceMoof(done, track, moof, default), track, moof, default);
    }
    PlaceMoofSnoc(done, e, track, moof, default);
    hide At, WriteTraf, TrafFrom, PlaceMoof, PlaceTraf, AddTraf, Sized, TrafOk;
    assert ([b] + rest)[1..] == rest;
  }

  lemma {:induction false} TrafsReadBack(v: seq<byte>, at: int, entries: seq<Entry<Traf>>, done: seq<Entry<Traf>>,
      track: nat, moof: int, default: nat)
    requires TrafsOk(entries) && At(v, at, WriteAll(TrafItems(entries)))
    ensures TrafsFrom(v, Layout(TrafItems(entries), at), PlaceMoof(done, track, moof, default), track, moof, default) ==
      Some(PlaceMoof(done + entries, track, moof, default))
    decreases |entries|
  {
    hide At, WriteAll, Layout, TrafItems, PlaceMoof, TrafEntryOk, TrafItem, TrafsFrom, TrafsOk;
    if entries == [] {
      TrafsEnd(v, at, PlaceMoof(done, track, moof, default), track, moof, default);
      assert done + entries == done;
    } else {
      var e, more := entries[0], entries[1..];
      FirstTraf(entries);
      var b, q := FirstAt(v, at, TrafItems(entries));
      TrafStep(v, b, Layout(TrafItems(more), q), e, done, track, moof, default);
      assert (done + [e]) + more == done + entries;
      TrafsReadBack(v, q, more, done + [e], track, moof, default);
    }
  }

  lemma TrafsEnd(v: seq<byte>, at: int, p: Placed, track: nat, moof: int, default: nat)
    ensures TrafsFrom(v, Layout(TrafItems([]), at), p, track, moof, default) == Some(p)
  {
    assert TrafItems([]) == [];
  }

  lemma FirstTraf(entries: seq<Entry<Traf>>)
    requires TrafsOk(entries) && entries != []
    ensures TrafEntryOk(entries[0]) && TrafsOk(entries[1..])
    ensures TrafItems(entries) != [] && TrafItems(entries)[0] == TrafItem(entries[0])
    ensures TrafItems(entries)[1..] == TrafItems(entries[1..])
    ensures Sized(TrafItem(entries[0]))
  {
    TrafItemOk(entries[0]);
    hide TrafEntryOk, TrafItem, Sized;
  }

  lemma TrafItemOk(e: Entry<Traf>)
    requires TrafEntryOk(e)
    ensures Sized(TrafItem(e)) && TrafItem(e).form == e.form
  {
  }

  lemma TrafItemsWritable(entries: seq<Entry<Traf>>)
    requires TrafsOk(entries)
    ensures Writable(TrafItems(entries))
  {
    forall k | 0 <= k < |entries| ensures Sized(TrafItems(entries)[k]) && TrafItems(entries)[k].form == entries[k].form {
      TrafItemOk(entries[k]);
    }
    hide TrafEntryOk, TrafItem, Sized;
  }

  lemma NoTrafs(track: nat, moof: int, default: nat)
    ensures PlaceMoof([], track, moof, default) == Placed([], 0)
  {
  }

  /** From bytes to runs: reading any movie fragment written as the standard lays it out, with any of
      the optional fields and any other boxes in between, yields for the track exactly the runs its
      boxes describe. */
  lemma FragmentReadsBack(v: seq<byte>, header: nat, trafs: seq<Entry<Traf>>, track: nat, moof: int, default: nat)
    requires TrafsOk(trafs) && At(v, header, WriteAll(TrafItems(trafs)))
    ensures MoofAt(v, header, header + |WriteAll(TrafItems(trafs))|, track, moof, default) ==
      Some(PlaceMoof(trafs, track, moof, default))
  {
    hide WriteAll, At, TrafItems, Kids, TrafsFrom, PlaceMoof, TrafsOk, Writable, Layout;
    TrafItemsWritable(trafs);
    NoTrafs(track, moof, default);
    assert [] + trafs == trafs;
    KidsRead(v, header, TrafItems(trafs));
    TrafsReadBack(v, header, trafs, [], track, moof, default);
  }

  /** So what is read is what the standard says exactly where the source's rule for data without a
      base comes to the standard's. */
  lemma FragmentFollowsStandard(v: seq<byte>, header: nat, trafs: seq<Entry<Traf>>, track: nat, moof: int, defaults: nat -> nat)
    requires TrafsOk(trafs) && At(v, header, WriteAll(TrafItems(trafs)))
    ensures var r := MoofAt(v, header, header + |WriteAll(TrafItems(trafs))|, track, moof, defaults(track));
      r.Some? &&
      (r.value.runs == StandardMoof(trafs, track, moof, defaults).runs <==> BasesMeetWhereNeeded(trafs, track, moof, defaults))
  {
    FragmentReadsBack(v, header, trafs, track, moof, defaults(track));
    AgreesExactly(trafs, track, moof, defaults);
  }
}
