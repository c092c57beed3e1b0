/** The timeline (web/src/feed.ts) over the transcript lines (`transcriptLines` in
    web/src/reducer.ts). Sort times are doubled, so the source's "+ 0.5" is "+ 1" here. */
module Feed {
  import opened Options
  import opened Sorting
  import opened Reducer

  datatype Line = Line(
    isDraft: bool, id: RowKey, key: RowKey, sortMs: int, start: int, end: int, speaker: Speaker, text: string)

  datatype Kind = Action | Decision | Note | Related | Work
  datatype Insight = Insight(key: string, kind: Kind, text: string, srcMs: Option<int>)
  datatype Arrival = Arrival(at: int, initial: bool, wall: int)

  datatype Entry =
    | LineEntry(sort2: int, line: Line)
    | MarkerEntry(sort2: int, marker: Marker)
    | InsightEntry(sort2: int, insight: Insight)

  function LineSort(l: Line): int { l.sortMs }
  function EntrySort(e: Entry): int { e.sort2 }
  function Section(i: Insight): int {
    match i.kind case Action => 0 case Decision => 1 case Note => 2 case Related => 3 case Work => 4
  }

  function Map<A, B>(s: seq<A>, f: A -> B): (r: seq<B>)
    ensures |r| == |s| && forall i :: 0 <= i < |s| ==> r[i] == f(s[i])
  {
    seq(|s|, i requires 0 <= i < |s| => f(s[i]))
  }

  // ---- transcriptLines -------------------------------------------------------------------

  function SegmentLine(slots: map<string, Slot>, s: Segment): Line {
    var slotted := s.id in slots;
    Line(false, SegmentKey(s.id), if slotted then slots[s.id].key else SegmentKey(s.id),
         if slotted then slots[s.id].sortMs else s.core.start,
         s.core.start, s.core.end, s.core.speaker, s.core.text)
  }

  function DraftLine(d: Draft): Line {
    var key := DraftKey(d.channel, d.start);
    Line(true, key, key, d.start, d.start, d.end, if d.channel == Mic then Me else Them, d.text)
  }

  function SegmentLines(state: LiveState): seq<Line> { Map(state.segments, s => SegmentLine(state.slots, s)) }
  function DraftLines(drafts: seq<Draft>): seq<Line> { Map(drafts, DraftLine) }

  function Lines(state: LiveState): seq<Line> {
    StableSort(SegmentLines(state) + DraftLines(state.drafts), LineSort)
  }

  /** `transcriptLines` as the source writes it, drafts pushed one at a time. */
  method TranscriptLines(state: LiveState) returns (r: seq<Line>)
    ensures r == Lines(state)
  {
    var lines := SegmentLines(state);
    for i := 0 to |state.drafts|
      invariant lines == SegmentLines(state) + DraftLines(state.drafts)[..i]
    {
      lines := lines + [DraftLine(state.drafts[i])];
    }
    assert DraftLines(state.drafts)[..|state.drafts|] == DraftLines(state.drafts);
    r := StableSort(lines, LineSort);
  }

  // ---- arrivals --------------------------------------------------------------------------

  function Arrived(prev: map<string, Arrival>, keys: seq<string>, now: Arrival): map<string, Arrival> {
    prev + map k | k in keys && k !in prev :: now
  }

  /** `trackArrivals` as the source writes it. */
  method TrackArrivals(prev: map<string, Arrival>, keys: seq<string>, streamMs: int, initial: bool, wall: int)
    returns (next: map<string, Arrival>)
    ensures next == Arrived(prev, keys, Arrival(streamMs, initial, wall))
  {
    next := prev;
    for i := 0 to |keys|
      invariant next == Arrived(prev, keys[..i], Arrival(streamMs, initial, wall))
    {
      assert keys[..i + 1] == keys[..i] + [keys[i]];
      if keys[i] !in prev {
        next := next[keys[i] := Arrival(streamMs, initial, wall)];
      }
    }
    assert keys[..|keys|] == keys;
  }

  // ---- buildFeed -------------------------------------------------------------------------

  function LineEntries(lines: seq<Line>): seq<Entry> { Map(lines, (l: Line) => LineEntry(2 * l.sortMs, l)) }
  function MarkerEntries(markers: seq<Marker>): seq<Entry> { Map(markers, (m: Marker) => MarkerEntry(2 * m.t, m)) }

  function LastSort(entries: seq<Entry>): (m: int)
    ensures m >= 0 && forall e :: e in entries ==> e.sort2 <= m
  {
    if entries == [] then 0
    else
      var last := entries[|entries| - 1];
      assert entries == entries[..|entries| - 1] + [last];
      Max(LastSort(entries[..|entries| - 1]), last.sort2)
  }

  /** Where a finding goes: just after the stream time it was found at, a work item not before the
      line it came from, and one with no record at the end. */
  function Place(i: Insight, arrivals: map<string, Arrival>, last2: int): int {
    if i.key in arrivals then 2 * Max(arrivals[i.key].at, if i.srcMs.Some? then i.srcMs.value else 0) + 1
    else last2 + 1
  }

  function InsightEntries(insights: seq<Insight>, arrivals: map<string, Arrival>, last2: int): seq<Entry> {
    Map(insights, i => InsightEntry(Place(i, arrivals, last2), i))
  }

  function FeedOf(lines: seq<Line>, markers: seq<Marker>, insights: seq<Insight>, arrivals: map<string, Arrival>): seq<Entry> {
    var spoken := LineEntries(lines) + MarkerEntries(markers);
    StableSort(spoken + InsightEntries(StableSort(insights, Section), arrivals, LastSort(spoken)), EntrySort)
  }

  /** `buildFeed` as the source writes it. */
  method BuildFeed(lines: seq<Line>, markers: seq<Marker>, insights: seq<Insight>, arrivals: map<string, Arrival>)
    returns (r: seq<Entry>)
    ensures r == FeedOf(lines, markers, insights, arrivals)
  {
    hide StableSort, LineEntries, MarkerEntries;
    var spoken := LineEntries(lines) + MarkerEntries(markers);
    var last2 := 0;
    for i := 0 to |spoken|
      invariant last2 == LastSort(spoken[..i])
    {
      assert spoken[..i + 1][..i] == spoken[..i];
      last2 := Max(last2, spoken[i].sort2);
    }
    assert spoken[..|spoken|] == spoken;
    var sorted := StableSort(insights, Section);
    var entries := spoken;
    for i := 0 to |sorted|
      invariant entries == spoken + InsightEntries(sorted, arrivals, last2)[..i]
    {
      var insight := sorted[i];
      var sort2 := last2 + 1;
      if insight.key in arrivals {
        var seen := arrivals[insight.key].at;
        sort2 := 2 * Max(seen, if insight.srcMs.Some? then insight.srcMs.value else 0) + 1;
      }
      entries := entries + [InsightEntry(sort2, insight)];
    }
    assert InsightEntries(sorted, arrivals, last2)[..|sorted|] == InsightEntries(sorted, arrivals, last2);
    r := StableSort(entries, EntrySort);
  }

  // ---- what the feed shows ---------------------------------------------------------------

  lemma RemoveAt<A>(b: seq<A>, k: nat)
    requires k < |b|
    ensures multiset(b) == multiset(b[..k] + b[k + 1..]) + multiset{b[k]}
  {
    assert b == b[..k] + [b[k]] + b[k + 1..];
  }

  lemma MapRemoveAt<A, B>(b: seq<A>, k: nat, f: A -> B)
    requires k < |b|
    ensures multiset(Map(b, f)) == multiset(Map(b[..k] + b[k + 1..], f)) + multiset{f(b[k])}
  {
    var m := Map(b, f);
    RemoveAt(m, k);
    assert m[..k] + m[k + 1..] == Map(b[..k] + b[k + 1..], f);
  }

  function Without<A>(b: seq<A>, k: nat): seq<A> requires k < |b| { b[..k] + b[k + 1..] }

  lemma Matching<A>(a: seq<A>, b: seq<A>) returns (k: nat)
    requires multiset(a) == multiset(b) && a != []
    ensures k < |b| && b[k] == a[0] && multiset(Without(a, 0)) == multiset(Without(b, k))
  {
    assert a[0] in multiset(b);
    k :| 0 <= k < |b| && b[k] == a[0];
    RemoveAt(a, 0);
    RemoveAt(b, k);
    assert multiset(Without(a, 0)) == multiset(a) - multiset{a[0]};
    assert multiset(Without(b, k)) == multiset(b) - multiset{a[0]};
  }

  lemma {:induction false} MapMultiset<A, B>(a: seq<A>, b: seq<A>, f: A -> B)
    requires multiset(a) == multiset(b)
    ensures multiset(Map(a, f)) == multiset(Map(b, f))
    decreases |a|
  {
    if a == [] {
      assert |multiset(b)| == |b| && multiset(b) == multiset{};
    } else {
      var k := Matching(a, b);
      MapRemoveAt(a, 0, f);
      MapRemoveAt(b, k, f);
      MapMultiset(Without(a, 0), Without(b, k), f);
    }
  }

  lemma FeedSorted(lines: seq<Line>, markers: seq<Marker>, insights: seq<Insight>, arrivals: map<string, Arrival>)
    ensures SortedBy(FeedOf(lines, markers, insights, arrivals), EntrySort)
  {
    var spoken := LineEntries(lines) + MarkerEntries(markers);
    StableSortSorts(spoken + InsightEntries(StableSort(insights, Section), arrivals, LastSort(spoken)), EntrySort);
  }

  /** The feed is in time order and holds every line, marker and finding exactly once. */
  lemma FeedIsSortedPermutation(lines: seq<Line>, markers: seq<Marker>, insights: seq<Insight>, arrivals: map<string, Arrival>)
    ensures var feed := FeedOf(lines, markers, insights, arrivals);
      && SortedBy(feed, EntrySort)
      && multiset(feed) == multiset(LineEntries(lines)) + multiset(MarkerEntries(markers)) +
           multiset(InsightEntries(insights, arrivals, LastSort(LineEntries(lines) + MarkerEntries(markers))))
  {
    var spoken := LineEntries(lines) + MarkerEntries(markers);
    var last2 := LastSort(spoken);
    StableSortSorts(insights, Section);
    var f := (i: Insight) => InsightEntry(Place(i, arrivals, last2), i);
    MapMultiset(StableSort(insights, Section), insights, f);
    assert InsightEntries(insights, arrivals, last2) == Map(insights, f);
    assert InsightEntries(StableSort(insights, Section), arrivals, last2) == Map(StableSort(insights, Section), f);
    StableSortSorts(spoken + InsightEntries(StableSort(insights, Section), arrivals, last2), EntrySort);
  }
}
