/** The dashboard's state and the events it folds (web/src/reducer.ts): the parts of `LiveState`
    that carry the transcript. The status, error, connection and session fields are replaced whole
    by their own events and touch nothing here, so those events are one case, `Banner`. */
module Reducer {
  import opened Options
  import opened Sorting

  datatype Channel = Mic | System
  datatype Speaker = Me | Them

  /** What a segment says and when: fixed once the segment exists. */
  datatype Core = Core(channel: Channel, speaker: Speaker, start: int, end: int, text: string, tier: Option<string>)

  /** A segment as one JSON object. The voice fields come only over REST and change as voices are
      told apart; `layout` is the order the JSON text lists its keys in, which the stream and the
      REST API need not share. Two segments are the same JSON text exactly when they are equal. */
  datatype Segment = Segment(
    id: string, core: Core,
    speakerId: Option<string>, speakerRev: Option<int>, mixed: Option<bool>, layout: nat)

  datatype Draft = Draft(channel: Channel, start: int, end: int, text: string, final: bool)
  datatype Marker = Marker(t: int, text: string)
  datatype Finding = Finding(list: string, id: string, text: string)
  datatype Copilot = Copilot(version: int, findings: seq<Finding>)

  /** The row key of a draft, rendered by the source as "draft-<channel>-<start_ms>". */
  datatype RowKey = DraftKey(channel: Channel, start: int) | SegmentKey(id: string)
  datatype Slot = Slot(key: RowKey, sortMs: int)

  datatype SpeakerInfo = SpeakerInfo(id: string, name: Option<string>)
  datatype Assignment = Assignment(speakerId: Option<string>, rev: int, mixed: bool)
  datatype AssignMsg = AssignMsg(segmentId: string, speakerId: Option<string>, rev: int, mixed: Option<bool>)
  datatype Detail = Detail(segments: seq<Segment>, speakers: seq<SpeakerInfo>, copilot: Copilot, markers: seq<Marker>)

  datatype LiveState = LiveState(
    segments: seq<Segment>, drafts: seq<Draft>, markers: seq<Marker>, copilot: Copilot, streamMs: int,
    slots: map<string, Slot>, speakers: map<string, SpeakerInfo>, assignments: map<string, Assignment>)

  datatype Event =
    | SegmentMsg(segment: Segment)
    | SpeakerUpdate(speakers: seq<SpeakerInfo>, assignments: seq<AssignMsg>)
    | DraftMsg(draft: Draft)
    | MarkerMsg(marker: Marker)
    | CopilotMsg(copilot: Copilot)
    | Snapshot(detail: Detail)
    | Banner

  const EMPTY_COPILOT := Copilot(-1, [])
  const INITIAL := LiveState([], [], [], EMPTY_COPILOT, 0, map[], map[], map[])

  function SegStart(s: Segment): int { s.core.start }
  function SegId(s: Segment): string { s.id }
  function DraftStart(d: Draft): int { d.start }
  function MarkerTime(m: Marker): int { m.t }
  function Itself(m: Marker): Marker { m }
  function Max(a: int, b: int): int { if a < b then b else a }

  predicate Overlaps(a1: int, a2: int, b1: int, b2: int) { a1 < b2 && b1 < a2 }
  predicate SameSpot(s: Segment, d: Draft) {
    d.channel == s.core.channel && Overlaps(s.core.start, s.core.end, d.start, d.end)
  }
  predicate Clash(d: Draft, e: Draft) { d.channel == e.channel && Overlaps(d.start, d.end, e.start, e.end) }

  function Filter<T(!new)>(s: seq<T>, p: T -> bool): (r: seq<T>)
    ensures forall x :: x in r <==> x in s && p(x)
  {
    if s == [] then []
    else
      var last := s[|s| - 1];
      assert s == s[..|s| - 1] + [last];
      Filter(s[..|s| - 1], p) + if p(last) then [last] else []
  }

  // ---- upsertSegment ---------------------------------------------------------------------

  /** Where the first segment with this id is, or -1. */
  function IndexOf(list: seq<Segment>, id: string): (i: int)
    ensures -1 <= i < |list|
    ensures i >= 0 ==> list[i].id == id && forall j :: 0 <= j < i ==> list[j].id != id
    ensures i < 0 ==> forall s :: s in list ==> s.id != id
  {
    if list == [] then -1
    else
      var i := IndexOf(list[..|list| - 1], id);
      if i >= 0 then i else if list[|list| - 1].id == id then |list| - 1 else -1
  }

  function Upsert(list: seq<Segment>, seg: Segment): seq<Segment> {
    var i := IndexOf(list, seg.id);
    if i < 0 then StableSort(list + [seg], SegStart)
    else if list[i] == seg then list
    else StableSort(list[i := seg], SegStart)
  }

  function UpsertAll(list: seq<Segment>, incoming: seq<Segment>): seq<Segment> {
    if incoming == [] then list
    else Upsert(UpsertAll(list, incoming[..|incoming| - 1]), incoming[|incoming| - 1])
  }

  /** Whether any upsert built a new array, that is, whether `segments !== state.segments`. */
  predicate Changed(list: seq<Segment>, incoming: seq<Segment>) {
    incoming != [] &&
    (Changed(list, incoming[..|incoming| - 1]) ||
     UpsertAll(list, incoming) != UpsertAll(list, incoming[..|incoming| - 1]))
  }

  // ---- mergeSegments ---------------------------------------------------------------------

  /** `d` lies at the spot of `s`, and no draft before it does. */
  ghost predicate FirstAtSpot(drafts: seq<Draft>, s: Segment, d: Draft) {
    exists i :: 0 <= i < |drafts| && drafts[i] == d && SameSpot(s, d) && forall j :: 0 <= j < i ==> !SameSpot(s, drafts[j])
  }

  function FindDraft(drafts: seq<Draft>, s: Segment): (d: Option<Draft>)
    ensures d.Some? ==> FirstAtSpot(drafts, s, d.value)
    ensures d.None? ==> forall x :: x in drafts ==> !SameSpot(s, x)
  {
    if drafts == [] then None
    else if SameSpot(s, drafts[0]) then Some(drafts[0])
    else FindDraft(drafts[1..], s)
  }

  function AddSlot(slots: map<string, Slot>, drafts: seq<Draft>, s: Segment): map<string, Slot> {
    if s.id in slots then slots
    else
      var d := FindDraft(drafts, s);
      if d.None? then slots
      else slots[s.id := Slot(DraftKey(d.value.channel, d.value.start), d.value.start)]
  }

  function AddSlots(slots: map<string, Slot>, drafts: seq<Draft>, incoming: seq<Segment>): map<string, Slot> {
    if incoming == [] then slots
    else AddSlot(AddSlots(slots, drafts, incoming[..|incoming| - 1]), drafts, incoming[|incoming| - 1])
  }

  predicate Replaced(d: Draft, incoming: seq<Segment>) {
    exists i :: 0 <= i < |incoming| && SameSpot(incoming[i], d)
  }

  function MaxEnd(m: int, incoming: seq<Segment>): (r: int)
    ensures r >= m && forall s :: s in incoming ==> r >= s.core.end
    ensures r == m || exists s :: s in incoming && r == s.core.end
  {
    if incoming == [] then m
    else
      var last := incoming[|incoming| - 1];
      assert incoming == incoming[..|incoming| - 1] + [last];
      Max(MaxEnd(m, incoming[..|incoming| - 1]), last.core.end)
  }

  function Merged(state: LiveState, incoming: seq<Segment>): LiveState {
    if !Changed(state.segments, incoming) then state
    else state.(
      segments := UpsertAll(state.segments, incoming),
      drafts := Filter(state.drafts, d => !Replaced(d, incoming)),
      streamMs := MaxEnd(state.streamMs, incoming),
      slots := AddSlots(state.slots, state.drafts, incoming))
  }

  /** The pass of `mergeSegments` that lets a new segment take over the slot of the draft it replaces. */
  method FillSlots(known: map<string, Slot>, drafts: seq<Draft>, incoming: seq<Segment>) returns (slots: map<string, Slot>)
    ensures slots == AddSlots(known, drafts, incoming)
  {
    hide FindDraft;
    slots := known;
    for i := 0 to |incoming|
      invariant slots == AddSlots(known, drafts, incoming[..i])
    {
      assert incoming[..i + 1][..i] == incoming[..i];
      var s := incoming[i];
      if s.id !in slots {
        var replaced := FindDraft(drafts, s);
        if replaced.Some? {
          slots := slots[s.id := Slot(DraftKey(replaced.value.channel, replaced.value.start), replaced.value.start)];
        }
      }
    }
    assert incoming[..|incoming|] == incoming;
  }

  lemma MaxEndSnoc(from: int, incoming: seq<Segment>, i: nat)
    requires i < |incoming|
    ensures MaxEnd(from, incoming[..i + 1]) == Max(MaxEnd(from, incoming[..i]), incoming[i].core.end)
  {
    assert incoming[..i + 1][..i] == incoming[..i];
  }

  /** `Math.max` over the ends. */
  method LatestEnd(from: int, incoming: seq<Segment>) returns (end: int)
    ensures end == MaxEnd(from, incoming)
  {
    end := from;
    assert MaxEnd(from, incoming[..0]) == from;
    hide MaxEnd;
    for i := 0 to |incoming|
      invariant end == MaxEnd(from, incoming[..i])
    {
      MaxEndSnoc(from, incoming, i);
      end := Max(end, incoming[i].core.end);
    }
    assert incoming[..|incoming|] == incoming;
  }

  /** `mergeSegments` as the source writes it: three passes over local copies. */
  method MergeSegments(state: LiveState, incoming: seq<Segment>) returns (r: LiveState)
    ensures r == Merged(state, incoming)
  {
    hide Upsert, Filter, StableSort, Replaced, AddSlots, MaxEnd;
    var segments, same := state.segments, true;
    for i := 0 to |incoming|
      invariant segments == UpsertAll(state.segments, incoming[..i])
      invariant same == !Changed(state.segments, incoming[..i])
    {
      assert incoming[..i + 1][..i] == incoming[..i];
      var next := Upsert(segments, incoming[i]);
      same := same && next == segments;
      segments := next;
    }
    assert incoming[..|incoming|] == incoming;
    if same {
      return state;
    }
    var slots := FillSlots(state.slots, state.drafts, incoming);
    var streamMs := LatestEnd(state.streamMs, incoming);
    r := state.(
      segments := segments,
      drafts := Filter(state.drafts, d => !Replaced(d, incoming)),
      streamMs := streamMs,
      slots := slots);
  }

  // ---- the other events ------------------------------------------------------------------

  function ApplyDraft(drafts: seq<Draft>, d: Draft): seq<Draft> {
    StableSort(Filter(drafts, x => !Clash(x, d)) + [d], DraftStart)
  }

  function ApplyCopilot(state: LiveState, c: Copilot): LiveState {
    if c.version <= state.copilot.version then state else state.(copilot := c)
  }

  function AddMarker(markers: seq<Marker>, m: Marker): seq<Marker> {
    if m in markers then markers else StableSort(markers + [m], MarkerTime)
  }

  function AddMarkers(markers: seq<Marker>, ms: seq<Marker>): seq<Marker> {
    if ms == [] then markers else AddMarker(AddMarkers(markers, ms[..|ms| - 1]), ms[|ms| - 1])
  }

  function RevOf(who: map<string, Assignment>, id: string): int { if id in who then who[id].rev else -1 }

  function AssignmentOf(a: AssignMsg): Assignment {
    Assignment(a.speakerId, a.rev, a.mixed.Some? && a.mixed.value)
  }

  function Assign(who: map<string, Assignment>, a: AssignMsg): map<string, Assignment> {
    if a.rev > RevOf(who, a.segmentId) then who[a.segmentId := AssignmentOf(a)] else who
  }

  function AssignAll(who: map<string, Assignment>, msgs: seq<AssignMsg>): map<string, Assignment> {
    if msgs == [] then who else Assign(AssignAll(who, msgs[..|msgs| - 1]), msgs[|msgs| - 1])
  }

  function Hear(known: map<string, SpeakerInfo>, voices: seq<SpeakerInfo>): map<string, SpeakerInfo> {
    if voices == [] then known
    else
      var last := voices[|voices| - 1];
      Hear(known, voices[..|voices| - 1])[last.id := last]
  }

  function WithSpeakers(state: LiveState, speakers: seq<SpeakerInfo>, msgs: seq<AssignMsg>): LiveState {
    state.(speakers := Hear(state.speakers, speakers), assignments := AssignAll(state.assignments, msgs))
  }

  /** `applySpeakers` as the source writes it. */
  method ApplySpeakers(state: LiveState, speakers: seq<SpeakerInfo>, msgs: seq<AssignMsg>) returns (r: LiveState)
    ensures r == WithSpeakers(state, speakers, msgs)
  {
    var known := state.speakers;
    for i := 0 to |speakers|
      invariant known == Hear(state.speakers, speakers[..i])
    {
      assert speakers[..i + 1][..i] == speakers[..i];
      known := known[speakers[i].id := speakers[i]];
    }
    assert speakers[..|speakers|] == speakers;
    var who := state.assignments;
    for i := 0 to |msgs|
      invariant who == AssignAll(state.assignments, msgs[..i])
    {
      assert msgs[..i + 1][..i] == msgs[..i];
      var a := msgs[i];
      if a.rev > RevOf(who, a.segmentId) {
        who := who[a.segmentId := Assignment(a.speakerId, a.rev, a.mixed.Some? && a.mixed.value)];
      }
    }
    assert msgs[..|msgs|] == msgs;
    r := state.(speakers := known, assignments := who);
  }

  /** JavaScript truthiness of `speaker_id`. */
  predicate HasSpeaker(s: Segment) { s.speakerId.Some? && s.speakerId.value != "" }

  function AssignMsgOf(s: Segment): AssignMsg {
    AssignMsg(s.id, s.speakerId, if s.speakerRev.Some? then s.speakerRev.value else 0, s.mixed)
  }

  /** The assignments a snapshot carries: only of segments that name a speaker. */
  function SnapshotAssignments(segments: seq<Segment>): seq<AssignMsg> {
    if segments == [] then []
    else
      var last := segments[|segments| - 1];
      SnapshotAssignments(segments[..|segments| - 1]) + if HasSpeaker(last) then [AssignMsgOf(last)] else []
  }

  function ApplySnapshot(state: LiveState, d: Detail): LiveState {
    var merged := Merged(state, d.segments);
    var heard := WithSpeakers(merged, d.speakers, SnapshotAssignments(d.segments));
    var next := ApplyCopilot(heard, d.copilot);
    next.(markers := AddMarkers(next.markers, d.markers))
  }

  function Reduce(state: LiveState, e: Event): LiveState {
    match e
    case SegmentMsg(s) => Merged(state, [s])
    case SpeakerUpdate(speakers, msgs) => WithSpeakers(state, speakers, msgs)
    case DraftMsg(d) => state.(drafts := ApplyDraft(state.drafts, d), streamMs := Max(state.streamMs, d.end))
    case MarkerMsg(m) => state.(markers := AddMarker(state.markers, m))
    case CopilotMsg(c) => ApplyCopilot(state, c)
    case Snapshot(d) => ApplySnapshot(state, d)
    case Banner => state
  }

  function Fold(state: LiveState, events: seq<Event>): LiveState {
    if events == [] then state else Reduce(Fold(state, events[..|events| - 1]), events[|events| - 1])
  }
}
