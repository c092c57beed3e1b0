/** What every reachable dashboard state keeps, whatever events arrive and in whatever order. */
module ReducerInvariant {
  import opened Options
  import opened Sorting
  import opened Reducer

  ghost predicate Apart(drafts: seq<Draft>) {
    forall i, j :: 0 <= i < |drafts| && 0 <= j < |drafts| && i != j ==> !Clash(drafts[i], drafts[j])
  }

  ghost predicate Known(segments: seq<Segment>, id: string) {
    exists s :: s in segments && s.id == id
  }

  ghost predicate SegmentsOk(list: seq<Segment>) {
    SortedBy(list, SegStart) && DistinctBy(list, SegId)
  }

  ghost predicate MarkersOk(markers: seq<Marker>) {
    SortedBy(markers, MarkerTime) && DistinctBy(markers, Itself)
  }

  ghost predicate DraftsOk(drafts: seq<Draft>) {
    SortedBy(drafts, DraftStart) && Apart(drafts)
  }

  /** Segments, drafts and markers in order; ids, markers and draft ranges unique; the stream clock
      past everything shown; a row slot only for a segment that is there. */
  ghost predicate Inv(s: LiveState) {
    && SegmentsOk(s.segments)
    && DraftsOk(s.drafts)
    && MarkersOk(s.markers)
    && s.streamMs >= 0
    && (forall x :: x in s.segments ==> x.core.end <= s.streamMs)
    && (forall d :: d in s.drafts ==> d.end <= s.streamMs)
    && (forall id :: id in s.slots ==> Known(s.segments, id))
  }

  /** What a later state may not have taken back. */
  ghost predicate Grown(s: LiveState, t: LiveState) {
    && (forall id :: Known(s.segments, id) ==> Known(t.segments, id))
    && (forall m :: m in s.markers ==> m in t.markers)
    && (forall id :: id in s.slots ==> id in t.slots && t.slots[id] == s.slots[id])
    && (forall id :: id in s.assignments ==> id in t.assignments && s.assignments[id].rev <= t.assignments[id].rev)
    && s.copilot.version <= t.copilot.version
    && s.streamMs <= t.streamMs
  }

  // ---- segments --------------------------------------------------------------------------

  lemma InList(list: seq<Segment>, a: Segment, b: Segment)
    requires DistinctBy(list, SegId) && a in list && b in list && a.id == b.id
    ensures a == b
  {
    var i :| 0 <= i < |list| && list[i] == a;
    var j :| 0 <= j < |list| && list[j] == b;
    assert SegId(list[i]) == SegId(list[j]);
  }

  /** An upsert keeps the list in order with unique ids, holds exactly the new segment under its
      id, and leaves the others alone. */
  lemma UpsertKeeps(list: seq<Segment>, seg: Segment)
    requires SegmentsOk(list)
    ensures SegmentsOk(Upsert(list, seg))
    ensures forall x :: x in Upsert(list, seg) <==> x == seg || (x in list && x.id != seg.id)
  {
    hide StableSort, IndexOf;
    var i := IndexOf(list, seg.id);
    var next := if i < 0 then list + [seg] else list[i := seg];
    Replacing(list, i, seg);
    StableSortSorts(next, SegStart);
    StableSortElements(next, SegStart);
    DistinctByPermutation(next, StableSort(next, SegStart), SegId);
  }

  lemma Replacing(list: seq<Segment>, i: int, seg: Segment)
    requires DistinctBy(list, SegId) && -1 <= i < |list|
    requires if i < 0 then forall x :: x in list ==> x.id != seg.id else list[i].id == seg.id
    ensures var next := if i < 0 then list + [seg] else list[i := seg];
      && DistinctBy(next, SegId)
      && forall x :: x in next <==> x == seg || (x in list && x.id != seg.id)
  {
    var next := if i < 0 then list + [seg] else list[i := seg];
    forall x | x in list && x.id == seg.id ensures i >= 0 && x == list[i] {
      InList(list, x, list[i]);
    }
    forall x ensures x in next <==> x == seg || (x in list && x.id != seg.id) {
      if x in list && x.id != seg.id {
        var j :| 0 <= j < |list| && list[j] == x;
        assert next[j] == x;
      }
      if x in next && x != seg {
        var j :| 0 <= j < |next| && next[j] == x;
        assert list[j] == x && j != i;
      }
      assert next[if i < 0 then |list| else i] == seg;
    }
  }

  /** An upsert hands back the same list exactly when that very segment is already in it. */
  lemma UpsertSame(list: seq<Segment>, seg: Segment)
    requires SegmentsOk(list)
    ensures Upsert(list, seg) == list <==> seg in list
  {
    UpsertKeeps(list, seg);
    if seg in list {
      InList(list, seg, list[IndexOf(list, seg.id)]);
    }
  }

  lemma {:induction false} UpsertAllKeeps(list: seq<Segment>, incoming: seq<Segment>)
    requires SegmentsOk(list)
    ensures SegmentsOk(UpsertAll(list, incoming))
    ensures forall x :: x in UpsertAll(list, incoming) ==> x in list || x in incoming
    ensures forall x :: x in list || x in incoming ==> Known(UpsertAll(list, incoming), x.id)
    ensures !Changed(list, incoming) ==> UpsertAll(list, incoming) == list && forall x :: x in incoming ==> x in list
  {
    if incoming == [] {
      assert forall x :: x in list ==> Known(list, x.id);
    } else {
      var init, last := incoming[..|incoming| - 1], incoming[|incoming| - 1];
      assert incoming == init + [last];
      UpsertAllKeeps(list, init);
      var before := UpsertAll(list, init);
      UpsertKeeps(before, last);
      UpsertSame(before, last);
      var after := Upsert(before, last);
      forall x | x in list || x in incoming ensures Known(after, x.id) {
        if x.id == last.id {
          assert last in after;
        } else {
          assert Known(before, x.id);
          var y :| y in before && y.id == x.id;
          assert y in after;
        }
      }
    }
  }

  lemma {:induction false} SlotsKept(slots: map<string, Slot>, drafts: seq<Draft>, incoming: seq<Segment>)
    ensures forall id :: id in slots ==> id in AddSlots(slots, drafts, incoming) && AddSlots(slots, drafts, incoming)[id] == slots[id]
    ensures forall id :: id in AddSlots(slots, drafts, incoming) && id !in slots ==>
      TakenOver(drafts, incoming, id, AddSlots(slots, drafts, incoming)[id])
    ensures forall s, d :: s in incoming && d in drafts && SameSpot(s, d) ==> s.id in AddSlots(slots, drafts, incoming)
  {
    hide SameSpot, FindDraft;
    if incoming == [] {
    } else {
      var init, last := incoming[..|incoming| - 1], incoming[|incoming| - 1];
      assert incoming == init + [last];
      SlotsKept(slots, drafts, init);
      var before := AddSlots(slots, drafts, init);
      forall id | id in before && id !in slots ensures TakenOver(drafts, incoming, id, before[id]) {
        TakenOverSnoc(drafts, init, last, id, before[id]);
      }
      if last.id !in before && FindDraft(drafts, last).Some? {
        TakesOver(drafts, init, last);
      }
    }
  }

  lemma TakenOverSnoc(drafts: seq<Draft>, init: seq<Segment>, last: Segment, id: string, slot: Slot)
    requires TakenOver(drafts, init, id, slot)
    ensures TakenOver(drafts, init + [last], id, slot)
  {
    hide FirstAtSpot, Spotless;
    var k, d :| 0 <= k < |init| && TakesRow(drafts, init, k, d) && init[k].id == id && slot == RowOfDraft(d);
    assert TakesRow(drafts, init + [last], k, d);
  }

  lemma TakesOver(drafts: seq<Draft>, init: seq<Segment>, last: Segment)
    requires FindDraft(drafts, last).Some? && forall s, d :: s in init && d in drafts && SameSpot(s, d) ==> s.id != last.id
    ensures TakenOver(drafts, init + [last], last.id, RowOfDraft(FindDraft(drafts, last).value))
  {
    var d := FindDraft(drafts, last).value;
    hide FirstAtSpot, FindDraft, SameSpot;
    assert (init + [last])[|init|] == last;
    forall j | 0 <= j < |init| && init[j].id == last.id ensures Spotless(drafts, init[j]) {
      assert init[j] in init;
    }
    assert TakesRow(drafts, init + [last], |init|, d);
  }

  function RowOfDraft(d: Draft): Slot { Slot(DraftKey(d.channel, d.start), d.start) }

  /** No draft lies at the spot of `s`. */
  ghost predicate Spotless(drafts: seq<Draft>, s: Segment) { forall d :: d in drafts ==> !SameSpot(s, d) }

  /** Segment `k`, the first of its id with a draft at its spot, takes over the first such draft. */
  ghost predicate TakesRow(drafts: seq<Draft>, incoming: seq<Segment>, k: int, d: Draft)
    requires 0 <= k < |incoming|
  {
    FirstAtSpot(drafts, incoming[k], d) &&
    forall j :: 0 <= j < k && incoming[j].id == incoming[k].id ==> Spotless(drafts, incoming[j])
  }

  ghost predicate TakenOver(drafts: seq<Draft>, incoming: seq<Segment>, id: string, slot: Slot) {
    exists k, d :: 0 <= k < |incoming| && TakesRow(drafts, incoming, k, d) && incoming[k].id == id && slot == RowOfDraft(d)
  }

  /** In order, the first draft at a spot is the earliest one there. */
  lemma FirstIsEarliest(drafts: seq<Draft>, s: Segment, d: Draft)
    requires DraftsOk(drafts) && FirstAtSpot(drafts, s, d)
    ensures d in drafts && SameSpot(s, d) && forall x :: x in drafts && SameSpot(s, x) ==> d.start <= x.start
  {
    hide SameSpot;
    var i :| 0 <= i < |drafts| && drafts[i] == d && forall j :: 0 <= j < i ==> !SameSpot(s, drafts[j]);
    forall x | x in drafts && SameSpot(s, x) ensures d.start <= x.start {
      var j :| 0 <= j < |drafts| && drafts[j] == x;
      assert DraftStart(drafts[i]) <= DraftStart(drafts[j]);
    }
  }

  /** `d` may stand behind `list`. */
  ghost predicate Behind(list: seq<Draft>, d: Draft) {
    forall x :: x in list ==> DraftStart(x) <= DraftStart(d) && !Clash(x, d) && !Clash(d, x)
  }

  lemma DraftsSnoc(list: seq<Draft>, d: Draft)
    ensures DraftsOk(list + [d]) <==> DraftsOk(list) && Behind(list, d)
  {
    hide Clash;
    var all := list + [d];
    if DraftsOk(all) {
      assert forall i :: 0 <= i < |list| ==> list[i] == all[i];
      assert all[|list|] == d;
    }
  }

  lemma {:induction false} FilterSorted(drafts: seq<Draft>, p: Draft -> bool)
    requires DraftsOk(drafts)
    ensures DraftsOk(Filter(drafts, p))
  {
    hide DraftsOk, Clash, DraftStart;
    if drafts == [] {
    } else {
      var init, last := drafts[..|drafts| - 1], drafts[|drafts| - 1];
      assert drafts == init + [last];
      DraftsSnoc(init, last);
      FilterSorted(init, p);
      DraftsSnoc(Filter(init, p), last);
      assert Filter(drafts, p) == if p(last) then Filter(init, p) + [last] else Filter(init, p);
    }
  }

  lemma MergeKeeps(s: LiveState, incoming: seq<Segment>)
    requires Inv(s)
    ensures Inv(Merged(s, incoming)) && Grown(s, Merged(s, incoming))
  {
    var t := Merged(s, incoming);
    UpsertAllKeeps(s.segments, incoming);
    SlotsKept(s.slots, s.drafts, incoming);
    if Changed(s.segments, incoming) {
      FilterSorted(s.drafts, d => !Replaced(d, incoming));
      forall id | id in t.slots ensures Known(t.segments, id) {
        if id in s.slots {
          var x :| x in s.segments && x.id == id;
          assert Known(t.segments, x.id);
        }
      }
      forall id | Known(s.segments, id) ensures Known(t.segments, id) {
        var x :| x in s.segments && x.id == id;
        assert Known(t.segments, x.id);
      }
    }
  }

  /** `slot` is that of a draft that a segment of this id replaced. */
  /** The final text lands in its draft's place: when segments come in that are new, exactly the
      drafts at the same spot as one of them go, and each segment at a draft's spot has a slot: the
      one it had, or that of the first draft at its spot, and so the earliest (of several segments of
      one id, that of the first with a draft at its spot). */
  lemma DraftsHandOver(s: LiveState, incoming: seq<Segment>)
    requires Changed(s.segments, incoming)
    ensures var t := Merged(s, incoming);
      && (forall d :: d in t.drafts <==> d in s.drafts && forall x :: x in incoming ==> !SameSpot(x, d))
      && (forall x, d :: x in incoming && d in s.drafts && SameSpot(x, d) ==> x.id in t.slots)
      && (forall id :: id in t.slots ==>
           if id in s.slots then t.slots[id] == s.slots[id] else TakenOver(s.drafts, incoming, id, t.slots[id]))
  {
    hide AddSlots, UpsertAll, MaxEnd;
    SlotsKept(s.slots, s.drafts, incoming);
  }

  /** Segments delivered again change nothing, so a draft that came after its segment stays. */
  lemma NothingNewChangesNothing(s: LiveState, incoming: seq<Segment>)
    requires SegmentsOk(s.segments) && forall x :: x in incoming ==> x in s.segments
    ensures Merged(s, incoming) == s
  {
    UpsertAllAgain(s.segments, incoming);
  }

  // ---- the other events ------------------------------------------------------------------

  lemma {:induction false} InsertApart(drafts: seq<Draft>, d: Draft)
    requires Apart(drafts) && forall i :: 0 <= i < |drafts| ==> !Clash(drafts[i], d)
    ensures Apart(InsertSorted(drafts, d, DraftStart))
    ensures forall x :: x in InsertSorted(drafts, d, DraftStart) ==> x == d || x in drafts
  {
    if drafts == [] || DraftStart(drafts[|drafts| - 1]) <= DraftStart(d) {
    } else {
      var init, last := drafts[..|drafts| - 1], drafts[|drafts| - 1];
      InsertApart(init, d);
      var r := InsertSorted(init, d, DraftStart);
      forall i | 0 <= i < |r| ensures !Clash(r[i], last) && !Clash(last, r[i]) {
        assert r[i] in r;
        if r[i] != d {
          var j :| 0 <= j < |init| && init[j] == r[i];
          assert drafts[j] == r[i];
        }
      }
    }
  }

  lemma DraftKeeps(drafts: seq<Draft>, d: Draft)
    requires DraftsOk(drafts)
    ensures DraftsOk(ApplyDraft(drafts, d))
    ensures forall x :: x in ApplyDraft(drafts, d) <==> x == d || (x in drafts && !Clash(x, d))
  {
    var kept := Filter(drafts, x => !Clash(x, d));
    FilterSorted(drafts, x => !Clash(x, d));
    StableSortSorts(kept + [d], DraftStart);
    StableSortElements(kept + [d], DraftStart);
    StableSortOfSorted(kept, DraftStart);
    assert (kept + [d])[..|kept|] == kept;
    forall i | 0 <= i < |kept| ensures !Clash(kept[i], d) {
      assert kept[i] in kept;
    }
    InsertApart(kept, d);
  }

  lemma MarkerKeeps(markers: seq<Marker>, m: Marker)
    requires MarkersOk(markers)
    ensures MarkersOk(AddMarker(markers, m))
    ensures forall x :: x in AddMarker(markers, m) <==> x in markers || x == m
  {
    if m !in markers {
      var next := markers + [m];
      StableSortSorts(next, MarkerTime);
      StableSortElements(next, MarkerTime);
      DistinctByPermutation(next, StableSort(next, MarkerTime), Itself);
    }
  }

  lemma {:induction false} MarkersKeep(markers: seq<Marker>, ms: seq<Marker>)
    requires MarkersOk(markers)
    ensures MarkersOk(AddMarkers(markers, ms))
    ensures forall x :: x in AddMarkers(markers, ms) <==> x in markers || x in ms
  {
    if ms == [] {
    } else {
      var init, last := ms[..|ms| - 1], ms[|ms| - 1];
      assert ms == init + [last];
      MarkersKeep(markers, init);
      MarkerKeeps(AddMarkers(markers, init), last);
    }
  }

  lemma {:induction false} AssignKeeps(who: map<string, Assignment>, msgs: seq<AssignMsg>)
    ensures forall id :: id in who ==> id in AssignAll(who, msgs) && who[id].rev <= AssignAll(who, msgs)[id].rev
  {
    if msgs == [] {
    } else {
      AssignKeeps(who, msgs[..|msgs| - 1]);
    }
  }

  /** One event keeps the invariant and takes nothing back. */
  lemma StepKeeps(s: LiveState, e: Event)
    requires Inv(s)
    ensures Inv(Reduce(s, e)) && Grown(s, Reduce(s, e))
  {
    hide Merged, ApplyDraft, AssignAll, AddMarker, AddMarkers, SnapshotAssignments;
    match e
    case SegmentMsg(x) => MergeKeeps(s, [x]);
    case SpeakerUpdate(speakers, msgs) => AssignKeeps(s.assignments, msgs);
    case DraftMsg(d) => DraftKeeps(s.drafts, d);
    case MarkerMsg(m) => MarkerKeeps(s.markers, m);
    case CopilotMsg(c) =>
    case Banner =>
    case Snapshot(d) =>
      MergeKeeps(s, d.segments);
      var t := Merged(s, d.segments);
      AssignKeeps(t.assignments, SnapshotAssignments(d.segments));
      MarkersKeep(t.markers, d.markers);
  }

  /** Every state folded from the initial one satisfies the invariant. */
  lemma {:induction false} ReachableInv(events: seq<Event>)
    ensures Inv(Fold(INITIAL, events))
  {
    if events == [] {
    } else {
      ReachableInv(events[..|events| - 1]);
      StepKeeps(Fold(INITIAL, events[..|events| - 1]), events[|events| - 1]);
    }
  }

  /** Over any further events nothing shown is taken back: segments and markers stay, a slot never
      changes once given, and versions, revs and the stream clock never go down. */
  lemma {:induction false} HistoryGrows(s: LiveState, events: seq<Event>)
    requires Inv(s)
    ensures Inv(Fold(s, events)) && Grown(s, Fold(s, events))
  {
    if events == [] {
    } else {
      HistoryGrows(s, events[..|events| - 1]);
      StepKeeps(Fold(s, events[..|events| - 1]), events[|events| - 1]);
    }
  }

  // ---- idempotence -----------------------------------------------------------------------

  lemma DistinctInit(incoming: seq<Segment>)
    requires DistinctBy(incoming, SegId) && incoming != []
    ensures DistinctBy(incoming[..|incoming| - 1], SegId)
    ensures forall x :: x in incoming[..|incoming| - 1] ==> x.id != incoming[|incoming| - 1].id
  {
    var init := incoming[..|incoming| - 1];
    forall x | x in init ensures x.id != incoming[|incoming| - 1].id {
      var j :| 0 <= j < |init| && init[j] == x;
      assert SegId(incoming[j]) == x.id;
    }
  }

  lemma {:induction false} UpsertAllHolds(list: seq<Segment>, incoming: seq<Segment>)
    requires SegmentsOk(list) && DistinctBy(incoming, SegId)
    ensures forall x :: x in incoming ==> x in UpsertAll(list, incoming)
  {
    if incoming == [] {
    } else {
      var init, last := incoming[..|incoming| - 1], incoming[|incoming| - 1];
      assert incoming == init + [last];
      DistinctInit(incoming);
      UpsertAllHolds(list, init);
      UpsertAllKeeps(list, init);
      var before := UpsertAll(list, init);
      UpsertKeeps(before, last);
      assert UpsertAll(list, incoming) == Upsert(before, last);
    }
  }

  lemma {:induction false} UpsertAllAgain(list: seq<Segment>, incoming: seq<Segment>)
    requires SegmentsOk(list) && forall x :: x in incoming ==> x in list
    ensures UpsertAll(list, incoming) == list && !Changed(list, incoming)
  {
    if incoming == [] {
    } else {
      var init, last := incoming[..|incoming| - 1], incoming[|incoming| - 1];
      assert incoming == init + [last];
      UpsertAllAgain(list, init);
      UpsertSame(list, last);
    }
  }

  lemma {:induction false} AssignAgain(who: map<string, Assignment>, msgs: seq<AssignMsg>)
    requires forall a :: a in msgs ==> RevOf(who, a.segmentId) >= a.rev
    ensures AssignAll(who, msgs) == who
  {
    if msgs == [] {
    } else {
      var init, last := msgs[..|msgs| - 1], msgs[|msgs| - 1];
      assert msgs == init + [last];
      AssignAgain(who, init);
    }
  }

  lemma {:induction false} AssignTakes(who: map<string, Assignment>, msgs: seq<AssignMsg>)
    ensures forall a :: a in msgs ==> RevOf(AssignAll(who, msgs), a.segmentId) >= a.rev
  {
    if msgs == [] {
    } else {
      var init, last := msgs[..|msgs| - 1], msgs[|msgs| - 1];
      assert msgs == init + [last];
      AssignTakes(who, init);
    }
  }

  function LastVoice(voices: seq<SpeakerInfo>, id: string): Option<SpeakerInfo> {
    if voices == [] then None
    else if voices[|voices| - 1].id == id then Some(voices[|voices| - 1])
    else LastVoice(voices[..|voices| - 1], id)
  }

  lemma {:induction false} HearIs(known: map<string, SpeakerInfo>, voices: seq<SpeakerInfo>, id: string)
    ensures id in Hear(known, voices) <==> id in known || LastVoice(voices, id).Some?
    ensures LastVoice(voices, id).Some? ==> Hear(known, voices)[id] == LastVoice(voices, id).value
    ensures LastVoice(voices, id).None? && id in known ==> Hear(known, voices)[id] == known[id]
  {
    if voices == [] {
    } else {
      HearIs(known, voices[..|voices| - 1], id);
    }
  }

  lemma HearAgain(known: map<string, SpeakerInfo>, voices: seq<SpeakerInfo>)
    ensures Hear(Hear(known, voices), voices) == Hear(known, voices)
  {
    var once := Hear(known, voices);
    forall id ensures id in Hear(once, voices) <==> id in once
      ensures id in once ==> Hear(once, voices)[id] == once[id]
    {
      HearIs(known, voices, id);
      HearIs(once, voices, id);
    }
  }

  lemma MergeAgain(s: LiveState, incoming: seq<Segment>, u: LiveState)
    requires SegmentsOk(s.segments) && DistinctBy(incoming, SegId)
    requires u.segments == Merged(s, incoming).segments
    ensures Merged(u, incoming) == u
  {
    UpsertAllHolds(s.segments, incoming);
    UpsertAllKeeps(s.segments, incoming);
    UpsertAllAgain(u.segments, incoming);
  }

  lemma SpeakersAgain(s: LiveState, speakers: seq<SpeakerInfo>, msgs: seq<AssignMsg>, u: LiveState)
    requires u.speakers == WithSpeakers(s, speakers, msgs).speakers
    requires u.assignments == WithSpeakers(s, speakers, msgs).assignments
    ensures WithSpeakers(u, speakers, msgs) == u
  {
    HearAgain(s.speakers, speakers);
    AssignTakes(s.assignments, msgs);
    AssignAgain(u.assignments, msgs);
  }

  /** The fields an applied snapshot leaves, one step at a time. */
  lemma SnapshotFields(s: LiveState, d: Detail)
    ensures var t := ApplySnapshot(s, d);
      var heard := WithSpeakers(Merged(s, d.segments), d.speakers, SnapshotAssignments(d.segments));
      && t.segments == Merged(s, d.segments).segments && t.streamMs == Merged(s, d.segments).streamMs
      && t.speakers == heard.speakers && t.assignments == heard.assignments
      && t.markers == AddMarkers(s.markers, d.markers)
      && t.copilot == ApplyCopilot(s, d.copilot).copilot
  {
  }

  lemma SnapshotFixed(u: LiveState, d: Detail)
    requires Merged(u, d.segments) == u
    requires WithSpeakers(u, d.speakers, SnapshotAssignments(d.segments)) == u
    requires ApplyCopilot(u, d.copilot) == u
    requires AddMarkers(u.markers, d.markers) == u.markers
    ensures ApplySnapshot(u, d) == u
  {
  }

  /** Folding the same snapshot twice is folding it once, in every field. The one thing asked of
      the snapshot is that it lists no segment twice. */
  lemma SnapshotIdempotent(s: LiveState, d: Detail)
    requires Inv(s) && DistinctBy(d.segments, SegId)
    ensures Reduce(Reduce(s, Snapshot(d)), Snapshot(d)) == Reduce(s, Snapshot(d))
  {
    var once := ApplySnapshot(s, d);
    SnapshotFields(s, d);
    MergeAgain(s, d.segments, once);
    SpeakersAgain(Merged(s, d.segments), d.speakers, SnapshotAssignments(d.segments), once);
    assert AddMarkers(once.markers, d.markers) == once.markers by {
      MarkersKeep(s.markers, d.markers);
      MarkersAgain(once.markers, d.markers);
    }
    SnapshotFixed(once, d);
  }

  lemma {:induction false} MarkersAgain(markers: seq<Marker>, ms: seq<Marker>)
    requires forall m :: m in ms ==> m in markers
    ensures AddMarkers(markers, ms) == markers
  {
    if ms == [] {
    } else {
      assert ms == ms[..|ms| - 1] + [ms[|ms| - 1]];
      MarkersAgain(markers, ms[..|ms| - 1]);
    }
  }

  // ---- what the small rules mean ---------------------------------------------------------

  predicate Within(t: int, start: int, end: int) { start <= t < end }

  /** A segment and a draft that last are at one spot exactly if they are of one channel and some
      moment is in both; two drafts clash exactly then too. */
  lemma SpotMeans(s: Segment, d: Draft)
    requires s.core.start < s.core.end && d.start < d.end
    ensures SameSpot(s, d) <==>
      d.channel == s.core.channel && exists t :: Within(t, s.core.start, s.core.end) && Within(t, d.start, d.end)
  {
    var t := Max(s.core.start, d.start);
    if SameSpot(s, d) {
      assert Within(t, s.core.start, s.core.end) && Within(t, d.start, d.end);
    }
  }

  lemma ClashMeans(d: Draft, e: Draft)
    requires d.start < d.end && e.start < e.end
    ensures Clash(d, e) <==> d.channel == e.channel && exists t :: Within(t, d.start, d.end) && Within(t, e.start, e.end)
  {
    var t := Max(d.start, e.start);
    if Clash(d, e) {
      assert Within(t, d.start, d.end) && Within(t, e.start, e.end);
    }
  }

  /** The info of a speaker is that of the last message naming it, or the one known before. */
  lemma {:induction false} LastHeard(known: map<string, SpeakerInfo>, voices: seq<SpeakerInfo>, i: int)
    requires -1 <= i < |voices| && forall j :: i < j < |voices| && i >= 0 ==> voices[j].id != voices[i].id
    ensures i >= 0 ==> voices[i].id in Hear(known, voices) && Hear(known, voices)[voices[i].id] == voices[i]
    ensures forall id :: (forall v :: v in voices ==> v.id != id) ==>
      (id in Hear(known, voices) <==> id in known) && (id in known ==> Hear(known, voices)[id] == known[id])
  {
    if voices == [] {
    } else {
      var init, last := voices[..|voices| - 1], voices[|voices| - 1];
      assert voices == init + [last];
      LastHeard(known, init, if i == |voices| - 1 then -1 else i);
    }
  }

  /** What is not newer changes nothing: an assignment at the rev already shown or below, a copilot at
      the version already shown or below, a marker already there. */
  lemma {:induction false} OldChangesNothing(s: LiveState, msgs: seq<AssignMsg>)
    requires forall a :: a in msgs ==> a.segmentId in s.assignments && a.rev <= s.assignments[a.segmentId].rev
    ensures Reduce(s, SpeakerUpdate([], msgs)) == s
    ensures forall c: Copilot :: c.version <= s.copilot.version ==> Reduce(s, CopilotMsg(c)) == s
    ensures forall m :: m in s.markers ==> Reduce(s, MarkerMsg(m)) == s
  {
    OldAssigned(s.assignments, msgs);
  }

  lemma {:induction false} OldAssigned(who: map<string, Assignment>, msgs: seq<AssignMsg>)
    requires forall a :: a in msgs ==> a.segmentId in who && a.rev <= who[a.segmentId].rev
    ensures AssignAll(who, msgs) == who
  {
    if msgs == [] {
    } else {
      var init, last := msgs[..|msgs| - 1], msgs[|msgs| - 1];
      assert msgs == init + [last];
      OldAssigned(who, init);
    }
  }

  /** Of assignments to one segment the first with the highest rev counts, if that is higher than the
      one shown. */
  lemma {:induction false} NewestAssigned(who: map<string, Assignment>, msgs: seq<AssignMsg>, i: nat)
    requires i < |msgs| && (msgs[i].segmentId in who ==> who[msgs[i].segmentId].rev < msgs[i].rev) && msgs[i].rev > -1
    requires forall j :: 0 <= j < |msgs| && msgs[j].segmentId == msgs[i].segmentId ==>
      msgs[j].rev < msgs[i].rev || (msgs[j].rev == msgs[i].rev && i <= j)
    ensures var r, a := AssignAll(who, msgs), msgs[i];
      a.segmentId in r && r[a.segmentId] == Assignment(a.speakerId, a.rev, a.mixed == Some(true))
  {
    var init, last := msgs[..|msgs| - 1], msgs[|msgs| - 1];
    if i == |msgs| - 1 {
      BelowAssigned(who, init, last.segmentId, last.rev);
    } else {
      assert init[i] == msgs[i] && forall j :: 0 <= j < |init| ==> init[j] == msgs[j];
      NewestAssigned(who, init, i);
    }
  }

  lemma {:induction false} BelowAssigned(who: map<string, Assignment>, msgs: seq<AssignMsg>, id: string, rev: int)
    requires RevOf(who, id) < rev && forall j :: 0 <= j < |msgs| && msgs[j].segmentId == id ==> msgs[j].rev < rev
    ensures RevOf(AssignAll(who, msgs), id) < rev
  {
    if msgs == [] {
    } else {
      assert forall j :: 0 <= j < |msgs| - 1 ==> msgs[..|msgs| - 1][j] == msgs[j];
      BelowAssigned(who, msgs[..|msgs| - 1], id, rev);
    }
  }

  /** A row of a snapshot that names a speaker without a rev counts as rev 0, one that names nobody, or
      an empty name, as no assignment. */
  lemma RowAssigns(s: Segment)
    ensures AssignAll(map[], SnapshotAssignments([s])) ==
      if s.speakerId == None || s.speakerId == Some("") || (s.speakerRev.Some? && s.speakerRev.value < 0) then map[]
      else map[s.id := Assignment(s.speakerId, if s.speakerRev == None then 0 else s.speakerRev.value, s.mixed == Some(true))]
  {
    assert [s][..0] == [];
    var msgs := SnapshotAssignments([s]);
    assert SnapshotAssignments([]) == [] && AssignAll(map[], []) == map[];
    if HasSpeaker(s) {
      assert msgs == [AssignMsgOf(s)] && msgs[..0] == [];
      assert AssignAll(map[], msgs) == Assign(map[], AssignMsgOf(s));
    }
  }
}
