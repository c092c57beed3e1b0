/** Nothing is inserted above the reader: a finding recorded at the settled time stays below every
    final line of that moment, whatever arrives later (web/src/views/LiveSession.tsx:66-71). */
module FeedPlacement {
  import opened Options
  import opened Sorting
  import opened Reducer
  import opened ReducerInvariant
  import opened Convergence
  import opened Feed

  /** The end of the last final line: what findings are recorded against. */
  function SettledMs(s: LiveState): int { MaxEnd(0, s.segments) }

  /** A row slot sorts before its segment ends. */
  ghost predicate SlotsBelow(w: World, slots: map<string, Slot>) {
    forall id :: id in slots ==> slots[id].sortMs < w.core(id).end
  }

  ghost predicate Lasting(w: World) { forall id :: w.core(id).start <= w.core(id).end }

  lemma SlotStep(w: World, s: LiveState, e: Event)
    requires GenuineEvent(w, e) && SlotsBelow(w, s.slots)
    ensures SlotsBelow(w, Reduce(s, e).slots)
  {
    hide *;
    SlotsOfStep(s, e);
    GenuineDelivered(w, e);
    MergedBelow(w, s, Delivered(e));
  }

  lemma GenuineDelivered(w: World, e: Event)
    requires GenuineEvent(w, e)
    ensures forall x :: x in Delivered(e) ==> x.core == w.core(x.id)
  {
  }

  lemma MergedBelow(w: World, s: LiveState, incoming: seq<Segment>)
    requires SlotsBelow(w, s.slots) && forall x :: x in incoming ==> x.core == w.core(x.id)
    ensures SlotsBelow(w, Merged(s, incoming).slots)
  {
    hide Changed, UpsertAll, MaxEnd, AddSlots;
    SlotsKept(s.slots, s.drafts, incoming);
    forall id, slot | TakenOver(s.drafts, incoming, id, slot) ensures slot.sortMs < w.core(id).end {
      TakenBelow(w, s.drafts, incoming, id, slot);
    }
  }

  lemma TakenBelow(w: World, drafts: seq<Draft>, incoming: seq<Segment>, id: string, slot: Slot)
    requires TakenOver(drafts, incoming, id, slot) && forall x :: x in incoming ==> x.core == w.core(x.id)
    ensures slot.sortMs < w.core(id).end
  {
    var k, d :| 0 <= k < |incoming| && TakesRow(drafts, incoming, k, d) && incoming[k].id == id && slot == RowOfDraft(d);
    assert incoming[k] in incoming;
  }

  lemma {:induction false} SlotsStayBelow(w: World, s: LiveState, events: seq<Event>)
    requires (forall e :: e in events ==> GenuineEvent(w, e)) && SlotsBelow(w, s.slots)
    ensures SlotsBelow(w, Fold(s, events).slots)
  {
    if events == [] {
    } else {
      var init, last := events[..|events| - 1], events[|events| - 1];
      assert events == init + [last];
      SlotsStayBelow(w, s, init);
      SlotStep(w, Fold(s, init), last);
    }
  }

  /** A key keeps the arrival it was first given. */
  lemma ArrivalsNeverMove(prev: map<string, Arrival>, keys: seq<string>, now: Arrival, key: string)
    requires key in prev
    ensures key in Arrived(prev, keys, now) && Arrived(prev, keys, now)[key] == prev[key]
  {
  }

  lemma LineIsPlaced(w: World, t: LiveState, x: Segment, l: Line)
    requires SlotsBelow(w, t.slots) && Lasting(w)
    requires forall y :: y in t.segments ==> y.core == w.core(y.id)
    requires l in Lines(t) && l.id == SegmentKey(x.id)
    ensures l.sortMs <= w.core(x.id).end
  {
    var built := SegmentLines(t) + DraftLines(t.drafts);
    StableSortElements(built, LineSort);
    assert l in built;
    var i :| 0 <= i < |built| && built[i] == l;
    if i < |t.segments| {
      assert l == SegmentLine(t.slots, t.segments[i]);
      assert t.segments[i] in t.segments;
    }
  }

  lemma FeedEntries(lines: seq<Line>, markers: seq<Marker>, insights: seq<Insight>, arrivals: map<string, Arrival>, e: Entry)
    requires e in FeedOf(lines, markers, insights, arrivals)
    ensures e.LineEntry? ==> e.line in lines && e.sort2 == 2 * e.line.sortMs
    ensures e.InsightEntry? && e.insight.key in arrivals ==> e.sort2 > 2 * arrivals[e.insight.key].at
  {
    var spoken := LineEntries(lines) + MarkerEntries(markers);
    var found := InsightEntries(StableSort(insights, Section), arrivals, LastSort(spoken));
    StableSortElements(spoken + found, EntrySort);
    assert e in spoken + found;
    if e in LineEntries(lines) {
      var i :| 0 <= i < |lines| && LineEntries(lines)[i] == e;
      assert e == LineEntry(2 * lines[i].sortMs, lines[i]);
    } else if e in MarkerEntries(markers) {
      var i :| 0 <= i < |markers| && MarkerEntries(markers)[i] == e;
    } else {
      var i :| 0 <= i < |found| && found[i] == e;
    }
  }

  lemma LaterState(w: World, before: seq<Event>, after: seq<Event>, x: Segment)
    requires forall e :: e in before + after ==> GenuineEvent(w, e)
    requires x in Fold(INITIAL, before).segments
    ensures var t := Fold(Fold(INITIAL, before), after);
      SlotsBelow(w, t.slots) && forall y :: y in t.segments ==> y.core == w.core(y.id)
    ensures w.core(x.id).end <= SettledMs(Fold(INITIAL, before))
  {
    hide *;
    var s := Fold(INITIAL, before);
    assert forall e :: e in before || e in after ==> e in before + after;
    InitialOk(w);
    FoldJoins(w, INITIAL, before);
    FoldJoins(w, s, after);
    SlotsStayBelow(w, INITIAL, before);
    SlotsStayBelow(w, s, after);
    OwnCores(w, s);
    OwnCores(w, Fold(s, after));
    EndSettled(s, x);
  }

  lemma InitialOk(w: World)
    ensures Inv(INITIAL) && Genuine(w, ViewOf(INITIAL)) && SlotsBelow(w, INITIAL.slots)
  {
    assert ViewOf(INITIAL) == BOTTOM;
  }

  lemma OwnCores(w: World, s: LiveState)
    requires Genuine(w, ViewOf(s))
    ensures forall y :: y in s.segments ==> y.core == w.core(y.id)
  {
    forall y | y in s.segments ensures y.core == w.core(y.id) {
      assert (y.id, y.core) in ViewOf(s).segments;
    }
  }

  lemma EndSettled(s: LiveState, x: Segment)
    requires Inv(s) && x in s.segments
    ensures x.core.end <= SettledMs(s)
  {
  }

  lemma BelowIn(
    w: World, t: LiveState, x: Segment, key: string,
    markers: seq<Marker>, insights: seq<Insight>, arrivals: map<string, Arrival>, p: nat, q: nat)
    requires Lasting(w) && SlotsBelow(w, t.slots) && forall y :: y in t.segments ==> y.core == w.core(y.id)
    requires key in arrivals && w.core(x.id).end <= arrivals[key].at
    requires var feed := FeedOf(Lines(t), markers, insights, arrivals);
      && p < |feed| && feed[p].LineEntry? && feed[p].line.id == SegmentKey(x.id)
      && q < |feed| && feed[q].InsightEntry? && feed[q].insight.key == key
    ensures p < q
  {
    var feed := FeedOf(Lines(t), markers, insights, arrivals);
    FeedEntries(Lines(t), markers, insights, arrivals, feed[p]);
    FeedEntries(Lines(t), markers, insights, arrivals, feed[q]);
    LineIsPlaced(w, t, x, feed[p].line);
    FeedSorted(Lines(t), markers, insights, arrivals);
    assert EntrySort(feed[p]) < EntrySort(feed[q]);
  }

  /** Let a finding be recorded when the dashboard is in state `s`. In every later state `t`, after
      any further events, each line final at that moment is still above the finding, even one that
      has since taken over a draft's row. */
  lemma FindingStaysBelow(
    w: World, before: seq<Event>, after: seq<Event>, x: Segment, key: string,
    markers: seq<Marker>, insights: seq<Insight>, arrivals: map<string, Arrival>, p: nat, q: nat)
    requires Lasting(w) && forall e :: e in before + after ==> GenuineEvent(w, e)
    requires x in Fold(INITIAL, before).segments
    requires key in arrivals && arrivals[key].at == SettledMs(Fold(INITIAL, before))
    requires var feed := FeedOf(Lines(Fold(Fold(INITIAL, before), after)), markers, insights, arrivals);
      && p < |feed| && feed[p].LineEntry? && feed[p].line.id == SegmentKey(x.id)
      && q < |feed| && feed[q].InsightEntry? && feed[q].insight.key == key
    ensures p < q
  {
    LaterState(w, before, after, x);
    BelowIn(w, Fold(Fold(INITIAL, before), after), x, key, markers, insights, arrivals, p, q);
  }

  /** And the line is there: every final line of that moment is in every later feed. */
  lemma LineStays(w: World, before: seq<Event>, after: seq<Event>, x: Segment,
    markers: seq<Marker>, insights: seq<Insight>, arrivals: map<string, Arrival>)
    requires x in Fold(INITIAL, before).segments
    ensures var feed := FeedOf(Lines(Fold(Fold(INITIAL, before), after)), markers, insights, arrivals);
      exists e :: e in feed && e.LineEntry? && e.line.id == SegmentKey(x.id)
  {
    hide Fold, StableSort, InsightEntries, DraftLines, Inv, LastSort;
    var s := Fold(INITIAL, before);
    var t := Fold(s, after);
    ReachableInv(before);
    HistoryGrows(s, after);
    assert Known(s.segments, x.id);
    var y :| y in t.segments && y.id == x.id;
    var i :| 0 <= i < |t.segments| && t.segments[i] == y;
    var l := SegmentLine(t.slots, y);
    var built := SegmentLines(t) + DraftLines(t.drafts);
    assert built[i] == l;
    StableSortElements(built, LineSort);
    assert l in Lines(t);
    var j :| 0 <= j < |Lines(t)| && Lines(t)[j] == l;
    var spoken := LineEntries(Lines(t)) + MarkerEntries(markers);
    var found := InsightEntries(StableSort(insights, Section), arrivals, LastSort(spoken));
    var e := LineEntry(2 * l.sortMs, l);
    assert (spoken + found)[j] == e;
    StableSortElements(spoken + found, EntrySort);
    assert e in FeedOf(Lines(t), markers, insights, arrivals);
  }

  lemma InLines(t: LiveState)
    ensures forall x :: x in t.segments ==> SegmentLine(t.slots, x) in Lines(t)
    ensures forall d :: d in t.drafts ==> DraftLine(d) in Lines(t)
  {
    var built := SegmentLines(t) + DraftLines(t.drafts);
    StableSortElements(built, LineSort);
    forall x | x in t.segments ensures SegmentLine(t.slots, x) in Lines(t) {
      var i :| 0 <= i < |t.segments| && t.segments[i] == x;
      assert built[i] == SegmentLine(t.slots, x);
    }
    forall d | d in t.drafts ensures DraftLine(d) in Lines(t) {
      var i :| 0 <= i < |t.drafts| && t.drafts[i] == d;
      assert built[|t.segments| + i] == DraftLine(d);
    }
  }

  lemma NewSegment(s: LiveState, x: Segment)
    requires Inv(s) && !Known(s.segments, x.id)
    ensures Changed(s.segments, [x]) && x in Merged(s, [x]).segments
    ensures Merged(s, [x]).slots == AddSlot(s.slots, s.drafts, x) && x.id !in s.slots
    ensures forall d :: d in s.drafts && SameSpot(x, d) ==> d !in Merged(s, [x]).drafts
  {
    assert [x][..0] == [] && UpsertAll(s.segments, [x]) == Upsert(UpsertAll(s.segments, []), x);
    UpsertKeeps(s.segments, x);
    UpsertSame(s.segments, x);
    assert x !in s.segments;
    assert AddSlots(s.slots, s.drafts, [x]) == AddSlot(AddSlots(s.slots, s.drafts, []), s.drafts, x);
    DraftsHandOver(s, [x]);
    forall d | d in s.drafts && SameSpot(x, d) ensures Replaced(d, [x]) {
      assert SameSpot([x][0], d);
    }
  }

  /** The final text of a line appears in the row of the earliest draft it replaces, in its place. */
  lemma FinalLandsInDraftRow(s: LiveState, x: Segment) returns (d: Draft)
    requires Inv(s) && !Known(s.segments, x.id) && exists d :: d in s.drafts && SameSpot(x, d)
    ensures d in s.drafts && SameSpot(x, d) && DraftLine(d) in Lines(s)
    ensures forall y :: y in s.drafts && SameSpot(x, y) ==> d.start <= y.start
    ensures var t := Reduce(s, SegmentMsg(x));
      d !in t.drafts && exists l ::
        l in Lines(t) && l.id == SegmentKey(x.id) && l.text == x.core.text && l.key == DraftLine(d).key && l.sortMs == d.start
  {
    d := FindDraft(s.drafts, x).value;
    FirstIsEarliest(s.drafts, x, d);
    NewSegment(s, x);
    InLines(s);
    InLines(Merged(s, [x]));
    hide Merged, Lines, Inv, Known;
    assert SegmentLine(Merged(s, [x]).slots, x) in Lines(Merged(s, [x]));
  }

  /** And once a line has taken over a row it stays in that row and place, over any further events. */
  lemma RowNeverMoves(s: LiveState, events: seq<Event>, id: string, l: Line)
    requires Inv(s) && id in s.slots && l in Lines(Fold(s, events)) && l.id == SegmentKey(id)
    ensures l.key == s.slots[id].key && l.sortMs == s.slots[id].sortMs
  {
    HistoryGrows(s, events);
    hide Fold, Inv, StableSort;
    var t := Fold(s, events);
    var built := SegmentLines(t) + DraftLines(t.drafts);
    StableSortElements(built, LineSort);
    var i :| 0 <= i < |built| && built[i] == l;
  }

  /** The row a segment's line is shown in. */
  function RowKeyOf(s: LiveState, id: string): RowKey { if id in s.slots then s.slots[id].key else SegmentKey(id) }

  /** A merge builds a new list exactly if some incoming segment is not in the old one as it is. */
  lemma {:induction false} ChangedIsNew(list: seq<Segment>, incoming: seq<Segment>)
    requires SegmentsOk(list)
    ensures Changed(list, incoming) <==> exists y :: y in incoming && y !in list
  {
    if incoming == [] {
      assert !Changed(list, incoming);
    } else {
      var init, last := incoming[..|incoming| - 1], incoming[|incoming| - 1];
      assert incoming == init + [last];
      ChangedIsNew(list, init);
      if !Changed(list, init) {
        UpsertAllAgain(list, init);
        UpsertSame(list, last);
      }
    }
  }

  lemma MergeMovesExactly(s: LiveState, incoming: seq<Segment>, id: string)
    requires SegmentsOk(s.segments)
    ensures RowKeyOf(Merged(s, incoming), id) != RowKeyOf(s, id) <==>
      && id !in s.slots && (exists y :: y in incoming && y !in s.segments)
      && (exists x, d :: x in incoming && x.id == id && d in s.drafts && SameSpot(x, d))
  {
    ChangedIsNew(s.segments, incoming);
    SlotsKept(s.slots, s.drafts, incoming);
    hide Changed, UpsertAll, AddSlots, SegmentsOk, SameSpot, MaxEnd, Filter;
  }

  /** The segments an event brings. */
  function Delivered(e: Event): seq<Segment> {
    match e
    case SegmentMsg(x) => [x]
    case Snapshot(d) => d.segments
    case _ => []
  }

  /** A line that stands in a row of its own can still move. It does on exactly those deliveries that
      bring its segment, with a draft at its spot, and anything new at all: that need not be its own
      segment. */
  lemma RowMovesExactly(s: LiveState, e: Event, id: string)
    requires Inv(s)
    ensures RowKeyOf(Reduce(s, e), id) != RowKeyOf(s, id) <==>
      && id !in s.slots && (exists y :: y in Delivered(e) && y !in s.segments)
      && (exists x, d :: x in Delivered(e) && x.id == id && d in s.drafts && SameSpot(x, d))
  {
    hide Merged, SegmentsOk, SameSpot, Reduce, Delivered;
    MergeMovesExactly(s, Delivered(e), id);
    SlotsOfStep(s, e);
  }

  lemma SlotsOfStep(s: LiveState, e: Event)
    ensures Reduce(s, e).slots == Merged(s, Delivered(e)).slots
  {
    hide Upsert, UpsertAll, Filter, AssignAll, ApplyDraft, AddMarker, AddMarkers, SnapshotAssignments, MaxEnd, AddSlots;
  }

  const SETTLED := Segment("x", Core(Mic, Me, 0, 10, "said", None), None, None, None, 0)
  const LATER := Segment("y", Core(Mic, Me, 20, 30, "more", None), None, None, None, 0)
  const LATE := Draft(Mic, 4, 8, "sai", false)

  /** Such a run: a segment, a late draft at its spot, and a poll that brings the same segment again
      beside a new one. */
  lemma UnchangedLineMoves() returns (before: seq<Event>, e: Event)
    ensures var s := Fold(INITIAL, before);
      && SETTLED in s.segments && SETTLED in Reduce(s, e).segments
      && RowKeyOf(Reduce(s, e), "x") != RowKeyOf(s, "x")
  {
    before := [SegmentMsg(SETTLED), DraftMsg(LATE)];
    e := Snapshot(Detail([SETTLED, LATER], [], EMPTY_COPILOT, []));
    TwoEvents(SegmentMsg(SETTLED), DraftMsg(LATE));
    hide Reduce, Fold;
    var s := Fold(INITIAL, before);
    OneSegment();
    ThenDraft(Reduce(INITIAL, SegmentMsg(SETTLED)));
    BesideNew(s);
  }

  lemma TwoEvents(a: Event, b: Event)
    ensures Fold(INITIAL, [a, b]) == Reduce(Reduce(INITIAL, a), b)
  {
    hide Reduce;
    assert [a, b][..1] == [a] && [a][..0] == [];
    assert Fold(INITIAL, [a]) == Reduce(Fold(INITIAL, []), a);
  }

  lemma OneSegment()
    ensures var one := Reduce(INITIAL, SegmentMsg(SETTLED));
      Inv(one) && SETTLED in one.segments && LATER !in one.segments && one.slots == map[]
  {
    hide Upsert, Merged, MaxEnd, Filter;
    StepKeeps(INITIAL, SegmentMsg(SETTLED));
    NewSegment(INITIAL, SETTLED);
    SameSegments(INITIAL, [SETTLED]);
    UpsertAllKeeps([], [SETTLED]);
  }

  lemma ThenDraft(s: LiveState)
    requires Inv(s)
    ensures var t := Reduce(s, DraftMsg(LATE)); Inv(t) && t.segments == s.segments && t.slots == s.slots && LATE in t.drafts
  {
    hide *;
    StepKeeps(s, DraftMsg(LATE));
    DraftStep(s, LATE);
  }

  lemma DraftStep(s: LiveState, d: Draft)
    requires Inv(s)
    ensures var t := Reduce(s, DraftMsg(d)); t.segments == s.segments && t.slots == s.slots && d in t.drafts
  {
    hide ApplyDraft, SegmentsOk, DraftsOk, MarkersOk;
    DraftKeeps(s.drafts, d);
  }

  lemma BesideNew(s: LiveState)
    requires Inv(s) && SETTLED in s.segments && LATER !in s.segments && s.slots == map[] && LATE in s.drafts
    ensures var t := Reduce(s, Snapshot(Detail([SETTLED, LATER], [], EMPTY_COPILOT, [])));
      SETTLED in t.segments && RowKeyOf(t, "x") != RowKeyOf(s, "x")
  {
    var incoming := [SETTLED, LATER];
    var e := Snapshot(Detail(incoming, [], EMPTY_COPILOT, []));
    assert LATER in Delivered(e) && SETTLED in Delivered(e) && SameSpot(SETTLED, LATE);
    RowMovesExactly(s, e, "x");
    SnapshotBrings(s, e.detail);
  }

  lemma SnapshotBrings(s: LiveState, d: Detail)
    requires Inv(s) && DistinctBy(d.segments, SegId)
    ensures forall x :: x in d.segments ==> x in Reduce(s, Snapshot(d)).segments
  {
    hide UpsertAll, Merged, ApplySnapshot, SnapshotAssignments, WithSpeakers, AddMarkers, ApplyCopilot;
    SnapshotFields(s, d);
    UpsertAllHolds(s.segments, d.segments);
    SameSegments(s, d.segments);
  }

  lemma SameSegments(s: LiveState, incoming: seq<Segment>)
    requires SegmentsOk(s.segments)
    ensures Merged(s, incoming).segments == UpsertAll(s.segments, incoming)
  {
    if !Changed(s.segments, incoming) {
      ChangedIsNew(s.segments, incoming);
      UpsertAllAgain(s.segments, incoming);
    }
  }
}
