/** The runs of a fragmented MP4 (`fragmentRuns` in web/src/extractAudio.ts): where each movie
    fragment's samples lie, and what section 8.8 of ISO/IEC 14496-12 says about that. */
module Fragments {
  import opened Options
  import opened Bytes
  import opened Boxes
  import opened SampleTable

  // ---- the rules, on what a fragment says -------------------------------------------------

  datatype Row = Row(duration: nat, size: nat, flags: nat, offset: nat)

  /** A track run: which fields each of its rows carries, and the rows. */
  datatype Trun = Trun(version: nat, dataOffset: Option<int>, firstFlags: Option<nat>,
    durations: bool, sizes: bool, flags: bool, offsets: bool, rows: seq<Row>)

  datatype Base = Explicit(at: nat, alsoMoof: bool) | Moof | Implicit

  /** A box, with the form its size is written in: one that matters here, or any other. */
  datatype Entry<T> = Known(form: Form, value: T) | Plain(form: Form, kind: seq<byte>, payload: seq<byte>)

  /** A track fragment: its header's fields, and the boxes after the header. */
  datatype Traf = Traf(header: Form, version: nat, track: nat, base: Base, description: Option<nat>, duration: Option<nat>,
    size: Option<nat>, sampleFlags: Option<nat>, entries: seq<Entry<Trun>>)

  function SizesOf(t: Trun, default: nat): (r: seq<nat>)
    ensures |r| == |t.rows|
  {
    seq(|t.rows|, i requires 0 <= i < |t.rows| => if t.sizes then t.rows[i].size else default)
  }

  /** The runs so far and where the next one would start. */
  datatype Placed = Placed(runs: seq<Run>, next: int)

  function AddRun(p: Placed, from: int, sizes: seq<nat>): Placed {
    var length := Sum(sizes);
    Placed(if sizes == [] then p.runs else p.runs + [Run(from, length, sizes)], from + length)
  }

  function AddTrun(p: Placed, base: int, dataOffset: Option<int>, sizes: seq<nat>): Placed {
    AddRun(p, if dataOffset.Some? then base + dataOffset.value else p.next, sizes)
  }

  function PlaceTruns(entries: seq<Entry<Trun>>, base: int, default: nat): Placed {
    if entries == [] then Placed([], base)
    else
      var before := PlaceTruns(entries[..|entries| - 1], base, default);
      var e := entries[|entries| - 1];
      if e.Plain? then before else AddTrun(before, base, e.value.dataOffset, SizesOf(e.value, default))
  }

  function BaseOf(b: Base, implicit: int, moof: int): int {
    match b case Explicit(at, _) => at case Moof => moof case Implicit => implicit
  }

  function PlaceTraf(t: Traf, implicit: int, moof: int, default: nat): Placed {
    PlaceTruns(t.entries, BaseOf(t.base, implicit, moof), if t.size.Some? then t.size.value else default)
  }

  /** As the source has it: only the track's own fragments count as data before the next one. */
  function PlaceMoof(trafs: seq<Entry<Traf>>, track: nat, moof: int, default: nat): Placed {
    if trafs == [] then Placed([], 0)
    else
      var before := PlaceMoof(trafs[..|trafs| - 1], track, moof, default);
      var e := trafs[|trafs| - 1];
      if e.Plain? || e.value.track != track then before
      else AddTraf(before, PlaceTraf(e.value, ImplicitBase(before, moof), moof, default))
  }

  function ImplicitBase(before: Placed, moof: int): int { if before.next != 0 then before.next else moof }

  function AddTraf(before: Placed, here: Placed): Placed { Placed(before.runs + here.runs, here.next) }

  // ---- as the standard has it --------------------------------------------------------------

  /** Section 8.8.8 of ISO/IEC 14496-12: a sample has the size its row gives, or else the default. */
  function StandardSizes(rows: seq<Row>, given: bool, default: nat): seq<nat> {
    if rows == [] then [] else [if given then rows[0].size else default] + StandardSizes(rows[1..], given, default)
  }

  /** Section 8.8.8: a track run's data starts at its data offset from the fragment's base, or without
      one directly behind the run before it, the first one's at the base. `at` is where the runs so far
      end. */
  function StandardTruns(entries: seq<Entry<Trun>>, base: int, at: int, default: nat): Placed
    decreases |entries|
  {
    if entries == [] then Placed([], at)
    else if entries[0].Plain? then StandardTruns(entries[1..], base, at, default)
    else
      var t := entries[0].value;
      var start := if t.dataOffset.None? then at else base + t.dataOffset.value;
      var sizes := StandardSizes(t.rows, t.sizes, default);
      var more := StandardTruns(entries[1..], base, start + Sum(sizes), default);
      Placed((if t.rows == [] then [] else [Run(start, Sum(sizes), sizes)]) + more.runs, more.next)
  }

  /** Section 8.8.7: the base is the one given, or the movie fragment where the header says so, or else
      `behind`, the end of the data before; the default size is the header's before the track's. */
  function StandardTraf(t: Traf, behind: int, moof: int, trackSize: nat): Placed {
    var base := if t.base.Explicit? then t.base.at else if t.base.Moof? then moof else behind;
    StandardTruns(t.entries, base, base, if t.size.None? then trackSize else t.size.value)
  }

  /** As section 8.8.7 has it: with no base given, a fragment's data starts where
      that of the fragment before it ended, whatever track that is of, and the first one's at the
      movie fragment. `defaults` are the sizes the tracks' extends boxes give. */
  function StandardMoof(trafs: seq<Entry<Traf>>, track: nat, moof: int, defaults: nat -> nat): Placed {
    if trafs == [] then Placed([], moof)
    else
      var before := StandardMoof(trafs[..|trafs| - 1], track, moof, defaults);
      var e := trafs[|trafs| - 1];
      if e.Plain? then before
      else
        var here := StandardTraf(e.value, before.next, moof, defaults(e.value.track));
        Placed(if e.value.track == track then before.runs + here.runs else before.runs, here.next)
  }

  lemma {:induction false} SizesAsStandard(rows: seq<Row>, given: bool, default: nat)
    ensures StandardSizes(rows, given, default) ==
      seq(|rows|, i requires 0 <= i < |rows| => if given then rows[i].size else default)
  {
    if rows == [] {
    } else {
      SizesAsStandard(rows[1..], given, default);
    }
  }

  /** One more track run, at the end. */
  lemma {:induction false} StandardSnoc(entries: seq<Entry<Trun>>, e: Entry<Trun>, base: int, at: int, default: nat)
    ensures StandardTruns(entries + [e], base, at, default) ==
      var before := StandardTruns(entries, base, at, default);
      if e.Plain? then before else AddTrun(before, base, e.value.dataOffset, SizesOf(e.value, default))
    decreases |entries|
  {
    hide Sum, StandardSizes;
    if entries == [] {
      assert [e][1..] == [];
      assert [e] == [] + [e] && StandardTruns([], base, at, default) == Placed([], at);
      if e.Known? {
        SizesAsStandard(e.value.rows, e.value.sizes, default);
        assert StandardSizes(e.value.rows, e.value.sizes, default) == SizesOf(e.value, default);
      }
    } else {
      assert (entries + [e])[1..] == entries[1..] + [e];
      if entries[0].Plain? {
        StandardSnoc(entries[1..], e, base, at, default);
      } else {
        var t := entries[0].value;
        var start := if t.dataOffset.None? then at else base + t.dataOffset.value;
        StandardSnoc(entries[1..], e, base, start + Sum(StandardSizes(t.rows, t.sizes, default)), default);
      }
    }
  }

  /** Within a track fragment the source places every run where the standard does. */
  lemma {:induction false} TrunsAsStandard(entries: seq<Entry<Trun>>, base: int, default: nat)
    ensures PlaceTruns(entries, base, default) == StandardTruns(entries, base, base, default)
  {
    if entries == [] {
    } else {
      var init, e := entries[..|entries| - 1], entries[|entries| - 1];
      assert entries == init + [e];
      TrunsAsStandard(init, base, default);
      StandardSnoc(init, e, base, base, default);
    }
  }

  /** So with the same end of the data before, it places a fragment as the standard does. */
  lemma TrafAsStandard(t: Traf, behind: int, moof: int, default: nat)
    ensures PlaceTraf(t, behind, moof, default) == StandardTraf(t, behind, moof, default)
  {
    hide PlaceTruns, StandardTruns;
    TrunsAsStandard(t.entries, BaseOf(t.base, behind, moof), if t.size.Some? then t.size.value else default);
  }

  // ---- where source and standard agree -----------------------------------------------------

  ghost predicate HasRows(entries: seq<Entry<Trun>>) {
    exists i :: 0 <= i < |entries| && entries[i].Known? && entries[i].value.rows != []
  }

  /** Moving the base of a fragment moves every one of its runs by as much. */
  lemma {:induction false} TrunsMove(entries: seq<Entry<Trun>>, a: int, b: int, default: nat)
    ensures var p, q := PlaceTruns(entries, a, default), PlaceTruns(entries, b, default);
      && |p.runs| == |q.runs| && p.next - q.next == a - b
      && (forall i :: 0 <= i < |p.runs| ==> p.runs[i] == q.runs[i].(offset := q.runs[i].offset + a - b))
      && (p.runs != [] <==> HasRows(entries))
  {
    if entries == [] {
      assert !HasRows(entries);
    } else {
      hide Sum;
      TrunsMove(entries[..|entries| - 1], a, b, default);
      RowsBefore(entries);
    }
  }

  lemma RowsBefore(entries: seq<Entry<Trun>>)
    requires entries != []
    ensures var init, e := entries[..|entries| - 1], entries[|entries| - 1];
      HasRows(entries) <==> HasRows(init) || (e.Known? && e.value.rows != [])
  {
    var init := entries[..|entries| - 1];
    if HasRows(init) {
      var i :| 0 <= i < |init| && init[i].Known? && init[i].value.rows != [];
      assert entries[i].Known? && entries[i].value.rows != [];
    }
    if HasRows(entries) {
      var i :| 0 <= i < |entries| && entries[i].Known? && entries[i].value.rows != [];
      assert i < |init| ==> init[i] == entries[i];
    }
    var e := entries[|init|];
    if e.Known? && e.value.rows != [] {
      assert HasRows(entries);
    }
  }

  /** So one placed from two bases has the same runs exactly if it names its base itself, has no rows,
      or the bases are the same. */
  lemma TrafMoves(t: Traf, a: int, b: int, moof: int, default: nat)
    ensures var p, q := PlaceTraf(t, a, moof, default), PlaceTraf(t, b, moof, default);
      |p.runs| == |q.runs| && (p.runs == q.runs <==> (t.base.Implicit? && HasRows(t.entries) ==> a == b))
    ensures !t.base.Implicit? || a == b ==> PlaceTraf(t, a, moof, default) == PlaceTraf(t, b, moof, default)
  {
    hide PlaceTruns, HasRows;
    TrunsMove(t.entries, BaseOf(t.base, a, moof), BaseOf(t.base, b, moof), if t.size.Some? then t.size.value else default);
    var p, q := PlaceTraf(t, a, moof, default), PlaceTraf(t, b, moof, default);
    if p.runs != [] {
      assert p.runs[0].offset - q.runs[0].offset == BaseOf(t.base, a, moof) - BaseOf(t.base, b, moof);
    }
  }

  /** Behind `trafs` the source's base for data without one is the standard's: where the track's own
      data last ended, or the movie fragment for zero, is where the last fragment of any track ended. */
  ghost predicate BasesMeet(trafs: seq<Entry<Traf>>, track: nat, moof: int, defaults: nat -> nat) {
    ImplicitBase(PlaceMoof(trafs, track, moof, defaults(track)), moof) == StandardMoof(trafs, track, moof, defaults).next
  }

  ghost predicate Own(e: Entry<Traf>, track: nat) { e.Known? && e.value.track == track }

  /** A fragment of the track that has samples and leaves their base open. */
  ghost predicate NeedsBase(e: Entry<Traf>, track: nat) {
    Own(e, track) && e.value.base.Implicit? && HasRows(e.value.entries)
  }

  ghost predicate BasesMeetWhereNeeded(trafs: seq<Entry<Traf>>, track: nat, moof: int, defaults: nat -> nat) {
    forall j :: 0 <= j < |trafs| && NeedsBase(trafs[j], track) ==> BasesMeet(trafs[..j], track, moof, defaults)
  }

  lemma NeededBefore(trafs: seq<Entry<Traf>>, track: nat, moof: int, defaults: nat -> nat)
    requires trafs != []
    ensures var init, e := trafs[..|trafs| - 1], trafs[|trafs| - 1];
      BasesMeetWhereNeeded(trafs, track, moof, defaults) <==>
        BasesMeetWhereNeeded(init, track, moof, defaults) &&
        (NeedsBase(e, track) ==> BasesMeet(init, track, moof, defaults))
  {
    hide BasesMeet, NeedsBase;
    var init := trafs[..|trafs| - 1];
    assert forall j :: 0 <= j < |init| ==> trafs[..j] == init[..j] && trafs[j] == init[j];
  }

  /** One more fragment keeps the runs the same exactly if it was placed the same. */
  lemma OneMoreTraf(trafs: seq<Entry<Traf>>, track: nat, moof: int, defaults: nat -> nat)
    requires trafs != []
    ensures var init, e := trafs[..|trafs| - 1], trafs[|trafs| - 1];
      var a, b := PlaceMoof(init, track, moof, defaults(track)), StandardMoof(init, track, moof, defaults);
      var p, q := PlaceMoof(trafs, track, moof, defaults(track)), StandardMoof(trafs, track, moof, defaults);
      |a.runs| == |b.runs| ==>
        |p.runs| == |q.runs| &&
        (p.runs == q.runs <==> a.runs == b.runs && (NeedsBase(e, track) ==> BasesMeet(init, track, moof, defaults)))
  {
    hide PlaceTraf, StandardTraf, HasRows;
    var init, e := trafs[..|trafs| - 1], trafs[|trafs| - 1];
    var a, b := PlaceMoof(init, track, moof, defaults(track)), StandardMoof(init, track, moof, defaults);
    if Own(e, track) {
      TrafAsStandard(e.value, b.next, moof, defaults(track));
      TrafMoves(e.value, ImplicitBase(a, moof), b.next, moof, defaults(track));
      var p := PlaceTraf(e.value, ImplicitBase(a, moof), moof, defaults(track));
      var q := PlaceTraf(e.value, b.next, moof, defaults(track));
      if |a.runs| == |b.runs| {
        SameParts(a.runs, p.runs, b.runs, q.runs);
      }
    }
  }

  lemma SameParts<T>(a: seq<T>, p: seq<T>, b: seq<T>, q: seq<T>)
    requires |a| == |b|
    ensures a + p == b + q <==> a == b && p == q
  {
    if a + p == b + q {
      assert a == (a + p)[..|a|] == b && p == (a + p)[|a|..] == q;
    }
  }

  /** The source places every sample where the standard does exactly if the bases meet before each of
      the track's fragments that has samples and names no base. */
  lemma {:induction false} AgreesExactly(trafs: seq<Entry<Traf>>, track: nat, moof: int, defaults: nat -> nat)
    ensures var p, q := PlaceMoof(trafs, track, moof, defaults(track)), StandardMoof(trafs, track, moof, defaults);
      |p.runs| == |q.runs| && (p.runs == q.runs <==> BasesMeetWhereNeeded(trafs, track, moof, defaults))
  {
    hide NeedsBase, BasesMeet;
    if trafs == [] {
      assert PlaceMoof(trafs, track, moof, defaults(track)).runs == [];
    } else {
      hide PlaceMoof, StandardMoof, BasesMeetWhereNeeded;
      AgreesExactly(trafs[..|trafs| - 1], track, moof, defaults);
      OneMoreTraf(trafs, track, moof, defaults);
      NeededBefore(trafs, track, moof, defaults);
    }
  }

  // ---- when the bases meet -----------------------------------------------------------------

  /** What the fragment directly before says of it. Behind one of the track that names its base, or
      before which the bases met, they meet exactly if it does not end at the start of the file, or
      the movie fragment is there; behind one of another track exactly if it ends at the same byte as
      the track's own data so far, or, where that ends nowhere, at the movie fragment. */
  lemma MeetBehind(trafs: seq<Entry<Traf>>, track: nat, moof: int, defaults: nat -> nat)
    ensures trafs == [] ==> BasesMeet(trafs, track, moof, defaults)
    ensures trafs != [] ==>
      var init, e := trafs[..|trafs| - 1], trafs[|trafs| - 1];
      var before := BasesMeet(init, track, moof, defaults);
      && (e.Plain? ==> (BasesMeet(trafs, track, moof, defaults) <==> before))
      && (Own(e, track) && (!e.value.base.Implicit? || before) ==>
           (BasesMeet(trafs, track, moof, defaults) <==> StandardMoof(trafs, track, moof, defaults).next != 0 || moof == 0))
      && (e.Known? && !Own(e, track) ==>
           (BasesMeet(trafs, track, moof, defaults) <==>
             StandardMoof(trafs, track, moof, defaults).next == ImplicitBase(PlaceMoof(init, track, moof, defaults(track)), moof)))
  {
    hide PlaceTraf, StandardTraf, HasRows;
    if trafs != [] {
      var init, e := trafs[..|trafs| - 1], trafs[|trafs| - 1];
      if Own(e, track) {
        TrafAsStandard(e.value, StandardMoof(init, track, moof, defaults).next, moof, defaults(track));
        var a, b := PlaceMoof(init, track, moof, defaults(track)), StandardMoof(init, track, moof, defaults);
        TrafMoves(e.value, ImplicitBase(a, moof), b.next, moof, defaults(track));
      }
    }
  }

  /** The fragment directly before, if there is one, is the track's own and does not end at zero. */
  ghost predicate OwnBefore(trafs: seq<Entry<Traf>>, track: nat, moof: int, defaults: nat -> nat) {
    trafs == [] ||
    var init, e := trafs[..|trafs| - 1], trafs[|trafs| - 1];
    if e.Plain? then OwnBefore(init, track, moof, defaults)
    else e.value.track == track && StandardMoof(trafs, track, moof, defaults).next != 0
  }

  /** So they meet wherever each of the track's fragments without a base has one of its own directly
      before it. */
  lemma {:induction false} MeetBehindOwn(trafs: seq<Entry<Traf>>, track: nat, moof: int, defaults: nat -> nat)
    requires OwnBefore(trafs, track, moof, defaults)
    requires forall j :: 0 <= j < |trafs| && Own(trafs[j], track) && trafs[j].value.base.Implicit? ==>
      OwnBefore(trafs[..j], track, moof, defaults)
    ensures BasesMeet(trafs, track, moof, defaults)
  {
    hide BasesMeet, StandardMoof;
    MeetBehind(trafs, track, moof, defaults);
    if trafs == [] {
    } else {
      var init, e := trafs[..|trafs| - 1], trafs[|trafs| - 1];
      assert forall j :: 0 <= j < |init| ==> trafs[..j] == init[..j] && trafs[j] == init[j];
      if e.Plain? || e.value.base.Implicit? {
        MeetBehindOwn(init, track, moof, defaults);
      }
    }
  }

  /** Where they do not meet: a video fragment, then an audio fragment that names no base, as recorders
      before the base-is-moof flag wrote them: the standard puts the audio behind the video's data,
      the source at the start of the movie fragment. */
  lemma ForeignDataFirst() returns (trafs: seq<Entry<Traf>>)
    ensures PlaceMoof(trafs, 2, 1000, 0).runs == [Run(1000, 10, [10])]
    ensures StandardMoof(trafs, 2, 1000, Nothing).runs == [Run(1600, 10, [10])]
  {
    var video := OneRow(Some(100), 500);
    var audio := OneRow(None, 10);
    var first, second := Traf(Compact, 0, 1, Moof, None, None, None, None, [video]), Traf(Compact, 0, 2, Implicit, None, None, None, None, [audio]);
    trafs := [Known(Compact, first), Known(Compact, second)];
    PlaceOne(Some(100), 500, 1000);
    PlaceOne(None, 10, 1000);
    PlaceOne(None, 10, 1600);
    TrafAsStandard(first, 1000, 1000, 0);
    TrafAsStandard(second, 1600, 1000, 0);
    hide PlaceTruns, StandardTraf;
    assert trafs[..1] == [Known(Compact, first)] && [Known(Compact, first)][..0] == [];
    assert PlaceTraf(first, 1000, 1000, 0) == Placed([Run(1100, 500, [500])], 1600);
    assert StandardMoof([Known(Compact, first)], 2, 1000, Nothing) == Placed([], 1600);
    assert PlaceMoof([Known(Compact, first)], 2, 1000, 0) == Placed([], 0);
    assert PlaceTraf(second, 1000, 1000, 0) == Placed([Run(1000, 10, [10])], 1010);
    assert PlaceTraf(second, 1600, 1000, 0) == Placed([Run(1600, 10, [10])], 1610);
  }

  function Nothing(track: nat): nat { 0 }

  function OneRow(dataOffset: Option<int>, size: nat): Entry<Trun> {
    Known(Compact, Trun(0, dataOffset, None, false, true, false, false, [Row(0, size, 0, 0)]))
  }

  lemma PlaceOne(dataOffset: Option<int>, size: nat, base: int)
    ensures var from := if dataOffset.Some? then base + dataOffset.value else base;
      PlaceTruns([OneRow(dataOffset, size)], base, 0) == Placed([Run(from, size, [size])], from + size)
  {
    var e := OneRow(dataOffset, size);
    assert [e][..0] == [] && [size][..0] == [];
    assert SizesOf(e.value, 0) == [size] && Sum([size]) == Sum([]) + size;
  }
}
