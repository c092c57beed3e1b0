/** Where entries of the timeline stand relative to each other (`buildFeed` in web/src/feed.ts), and what
    its lines say (`transcriptLines` in web/src/reducer.ts). */
module FeedOrder {
  import opened Sorting
  import opened Reducer
  import opened Feed

  /** The stream time of a line or marker. */
  function TimeOf(e: Entry): int
    requires !e.InsightEntry?
  {
    if e.LineEntry? then e.line.sortMs else e.marker.t
  }

  /** When a finding with a record was found, or its source line began, whichever is later. */
  function Moment(i: Insight, arrivals: map<string, Arrival>): int
    requires i.key in arrivals
  {
    var seen := arrivals[i.key].at;
    if i.srcMs.Some? && i.srcMs.value > seen then i.srcMs.value
    else if i.srcMs.None? && seen < 0 then 0
    else seen
  }

  /** What each entry's sort time is made of. */
  lemma EntryTimes(lines: seq<Line>, markers: seq<Marker>, insights: seq<Insight>, arrivals: map<string, Arrival>, e: Entry)
    requires e in FeedOf(lines, markers, insights, arrivals)
    ensures var last2 := LastSort(LineEntries(lines) + MarkerEntries(markers));
      && (e.LineEntry? ==> e.line in lines && e.sort2 == 2 * e.line.sortMs && e.sort2 <= last2)
      && (e.MarkerEntry? ==> e.marker in markers && e.sort2 == 2 * e.marker.t && e.sort2 <= last2)
      && (e.InsightEntry? ==> e.insight in insights)
      && (e.InsightEntry? && e.insight.key in arrivals ==> e.sort2 == 2 * Moment(e.insight, arrivals) + 1)
      && (e.InsightEntry? && e.insight.key !in arrivals ==> e.sort2 == last2 + 1)
  {
    var spoken := LineEntries(lines) + MarkerEntries(markers);
    var found := InsightEntries(StableSort(insights, Section), arrivals, LastSort(spoken));
    StableSortElements(spoken + found, EntrySort);
    StableSortElements(insights, Section);
    assert e in spoken + found;
    if e in LineEntries(lines) {
      var i :| 0 <= i < |lines| && LineEntries(lines)[i] == e;
      assert e in spoken;
    } else if e in MarkerEntries(markers) {
      var i :| 0 <= i < |markers| && MarkerEntries(markers)[i] == e;
      assert e in spoken;
    } else {
      var i :| 0 <= i < |found| && found[i] == e;
      assert e.insight == StableSort(insights, Section)[i];
    }
  }

  lemma InOrder(lines: seq<Line>, markers: seq<Marker>, insights: seq<Insight>, arrivals: map<string, Arrival>, p: nat, q: nat)
    requires p < |FeedOf(lines, markers, insights, arrivals)| && q < |FeedOf(lines, markers, insights, arrivals)| && p != q
    requires var feed := FeedOf(lines, markers, insights, arrivals); feed[p].sort2 != feed[q].sort2
    ensures var feed := FeedOf(lines, markers, insights, arrivals); p < q <==> feed[p].sort2 < feed[q].sort2
  {
    hide FeedOf;
    FeedSorted(lines, markers, insights, arrivals);
    var feed := FeedOf(lines, markers, insights, arrivals);
    if p < q {
      assert EntrySort(feed[p]) <= EntrySort(feed[q]);
    } else {
      assert EntrySort(feed[q]) <= EntrySort(feed[p]);
    }
  }

  /** A finding with a record stands behind exactly those lines and markers that are no later than it
      was found or, for a work item, than its source line began, if that is later; one without a
      record stands behind all of them. */
  lemma FindingStands(
    lines: seq<Line>, markers: seq<Marker>, insights: seq<Insight>, arrivals: map<string, Arrival>, p: nat, q: nat)
    requires var feed := FeedOf(lines, markers, insights, arrivals);
      p < |feed| && q < |feed| && !feed[p].InsightEntry? && feed[q].InsightEntry?
    ensures var feed := FeedOf(lines, markers, insights, arrivals);
      p < q <==> feed[q].insight.key in arrivals ==> TimeOf(feed[p]) <= Moment(feed[q].insight, arrivals)
  {
    hide FeedOf, LastSort;
    var feed := FeedOf(lines, markers, insights, arrivals);
    EntryTimes(lines, markers, insights, arrivals, feed[p]);
    EntryTimes(lines, markers, insights, arrivals, feed[q]);
    InOrder(lines, markers, insights, arrivals, p, q);
  }

  /** The time of the last line or marker, or the start of the stream. */
  ghost predicate LastMoment(lines: seq<Line>, markers: seq<Marker>, t: int) {
    && t >= 0 && (forall l :: l in lines ==> l.sortMs <= t) && (forall m :: m in markers ==> m.t <= t)
    && (t == 0 || (exists l :: l in lines && l.sortMs == t) || (exists m :: m in markers && m.t == t))
  }

  lemma {:induction false} LastSortAttained(entries: seq<Entry>)
    ensures LastSort(entries) == 0 || exists e :: e in entries && e.sort2 == LastSort(entries)
  {
    if entries == [] {
    } else {
      LastSortAttained(entries[..|entries| - 1]);
      assert entries == entries[..|entries| - 1] + [entries[|entries| - 1]];
    }
  }

  lemma LastSortIsMoment(lines: seq<Line>, markers: seq<Marker>, t: int)
    requires LastMoment(lines, markers, t)
    ensures LastSort(LineEntries(lines) + MarkerEntries(markers)) == 2 * t
  {
    var a, b := LineEntries(lines), MarkerEntries(markers);
    LastSortAttained(a + b);
    forall e: Entry | e in a + b ensures e.sort2 <= 2 * t {
      if e in a {
        var i :| 0 <= i < |a| && a[i] == e;
        assert lines[i] in lines;
      } else {
        var i :| 0 <= i < |b| && b[i] == e;
        assert markers[i] in markers;
      }
    }
    if l :| l in lines && l.sortMs == t {
      var i :| 0 <= i < |lines| && lines[i] == l;
      assert a[i] in a + b;
    } else if m :| m in markers && m.t == t {
      var i :| 0 <= i < |markers| && markers[i] == m;
      assert b[i] in a + b;
    }
  }

  /** Findings stand in the order of their moments; one without a record counts as found when the last
      line or marker was. */
  lemma FindingsByMoment(
    lines: seq<Line>, markers: seq<Marker>, insights: seq<Insight>, arrivals: map<string, Arrival>, t: int, p: nat, q: nat)
    requires LastMoment(lines, markers, t)
    requires var feed := FeedOf(lines, markers, insights, arrivals);
      p < |feed| && q < |feed| && feed[p].InsightEntry? && feed[q].InsightEntry?
    ensures var feed := FeedOf(lines, markers, insights, arrivals);
      MomentOr(feed[p].insight, arrivals, t) < MomentOr(feed[q].insight, arrivals, t) ==> p < q
  {
    hide FeedOf, LastSort, LastMoment;
    var feed := FeedOf(lines, markers, insights, arrivals);
    LastSortIsMoment(lines, markers, t);
    EntryTimes(lines, markers, insights, arrivals, feed[p]);
    EntryTimes(lines, markers, insights, arrivals, feed[q]);
    if p != q && feed[p].sort2 != feed[q].sort2 {
      InOrder(lines, markers, insights, arrivals, p, q);
    }
  }

  function MomentOr(i: Insight, arrivals: map<string, Arrival>, t: int): int {
    if i.key in arrivals then Moment(i, arrivals) else t
  }

  // ---- at one sort time ------------------------------------------------------------------

  /** Among equal keys the ranks go up. */
  ghost predicate Ranked<T>(s: seq<T>, key: T -> int, rank: T -> int) {
    forall i, j :: 0 <= i < j < |s| && key(s[i]) == key(s[j]) ==> rank(s[i]) <= rank(s[j])
  }

  lemma {:induction false} Inserted<T>(s: seq<T>, x: T, key: T -> int, y: T)
    requires y in InsertSorted(s, x, key)
    ensures y in s || y == x
  {
    if s == [] || key(s[|s| - 1]) <= key(x) {
    } else if y != s[|s| - 1] {
      Inserted(s[..|s| - 1], x, key, y);
    }
  }

  lemma LastRanked<T>(s: seq<T>, key: T -> int, rank: T -> int)
    requires s != [] && Ranked(s, key, rank)
    ensures forall y :: y in s && key(y) == key(s[|s| - 1]) ==> rank(y) <= rank(s[|s| - 1])
  {
    forall y | y in s && key(y) == key(s[|s| - 1]) ensures rank(y) <= rank(s[|s| - 1]) {
      var i :| 0 <= i < |s| && s[i] == y;
    }
  }

  lemma RankedInit<T>(s: seq<T>, key: T -> int, rank: T -> int)
    requires s != [] && Ranked(s, key, rank)
    ensures Ranked(s[..|s| - 1], key, rank)
  {
  }

  lemma RankedSnoc<T>(r: seq<T>, last: T, key: T -> int, rank: T -> int)
    requires Ranked(r, key, rank) && forall y :: y in r && key(y) == key(last) ==> rank(y) <= rank(last)
    ensures Ranked(r + [last], key, rank)
  {
  }

  lemma LastHighest<T>(s: seq<T>, rank: T -> int)
    requires s != [] && SortedBy(s, rank)
    ensures SortedBy(s[..|s| - 1], rank) && forall y :: y in s[..|s| - 1] ==> rank(y) <= rank(s[|s| - 1])
  {
    var init := s[..|s| - 1];
    forall y | y in init ensures rank(y) <= rank(s[|s| - 1]) {
      var i :| 0 <= i < |init| && init[i] == y;
      assert s[i] == y;
    }
  }

  lemma {:induction false} InsertRanked<T>(s: seq<T>, x: T, key: T -> int, rank: T -> int)
    requires SortedBy(s, key) && Ranked(s, key, rank) && forall y :: y in s ==> rank(y) <= rank(x)
    ensures Ranked(InsertSorted(s, x, key), key, rank)
  {
    hide Ranked;
    if s == [] || key(s[|s| - 1]) <= key(x) {
      RankedSnoc(s, x, key, rank);
    } else {
      var init, last := s[..|s| - 1], s[|s| - 1];
      assert s == init + [last];
      RankedInit(s, key, rank);
      InsertRanked(init, x, key, rank);
      LastRanked(s, key, rank);
      var r := InsertSorted(init, x, key);
      forall y | y in r && key(y) == key(last) ensures rank(y) <= rank(last) {
        Inserted(init, x, key, y);
        assert y in s;
      }
      RankedSnoc(InsertSorted(init, x, key), last, key, rank);
    }
  }

  lemma {:induction false} SortRanked<T>(s: seq<T>, key: T -> int, rank: T -> int)
    requires SortedBy(s, rank)
    ensures Ranked(StableSort(s, key), key, rank)
  {
    if s == [] {
    } else {
      var init, last := s[..|s| - 1], s[|s| - 1];
      LastHighest(s, rank);
      SortRanked(init, key, rank);
      StableSortSorts(init, key);
      StableSortElements(init, key);
      forall y | y in StableSort(init, key) ensures rank(y) <= rank(last) {
        assert y in multiset(StableSort(init, key));
        assert y in multiset(init);
        assert y in s[..|s| - 1];
      }
      InsertRanked(StableSort(init, key), last, key, rank);
    }
  }

  /** Lines, markers, and then findings: actions, decisions, notes, related notes and work items. */
  function RankOf(e: Entry): int {
    if e.LineEntry? then 0
    else if e.MarkerEntry? then 1
    else if e.insight.kind == Action then 2
    else if e.insight.kind == Decision then 3
    else if e.insight.kind == Note then 4
    else if e.insight.kind == Related then 5
    else 6
  }

  /** Entries with the same sort time stand in that order. */
  lemma TiesByKind(lines: seq<Line>, markers: seq<Marker>, insights: seq<Insight>, arrivals: map<string, Arrival>)
    ensures Ranked(FeedOf(lines, markers, insights, arrivals), EntrySort, RankOf)
  {
    var spoken := LineEntries(lines) + MarkerEntries(markers);
    BuiltRanked(lines, markers, insights, arrivals, LastSort(spoken));
    hide StableSort, LineEntries, MarkerEntries, InsightEntries, SortedBy, Ranked, LastSort;
    SortRanked(spoken + InsightEntries(StableSort(insights, Section), arrivals, LastSort(spoken)), EntrySort, RankOf);
  }

  /** Before the sort by time they are in that order altogether. */
  lemma BuiltRanked(lines: seq<Line>, markers: seq<Marker>, insights: seq<Insight>, arrivals: map<string, Arrival>, last2: int)
    ensures SortedBy(LineEntries(lines) + MarkerEntries(markers) + InsightEntries(StableSort(insights, Section), arrivals, last2),
      RankOf)
  {
    var sorted := StableSort(insights, Section);
    StableSortSorts(insights, Section);
    hide StableSort, Place;
    var a, b, c := LineEntries(lines), MarkerEntries(markers), InsightEntries(sorted, arrivals, last2);
    forall i | 0 <= i < |sorted| ensures RankOf(c[i]) == 2 + Section(sorted[i]) {
    }
    var all := a + b + c;
    forall i | 0 <= i < |all|
      ensures RankOf(all[i]) == if i < |a| then 0 else if i < |a| + |b| then 1 else 2 + Section(sorted[i - |a| - |b|])
    {
    }
  }

  // ---- what the lines say ----------------------------------------------------------------

  /** A final line: the segment's own words and times, in the row and place it took over, if any. */
  predicate SaysSegment(l: Line, x: Segment, slots: map<string, Slot>) {
    && !l.isDraft && l.id == SegmentKey(x.id) && l.text == x.core.text && l.speaker == x.core.speaker
    && l.start == x.core.start && l.end == x.core.end
    && (if x.id in slots then Slot(l.key, l.sortMs) == slots[x.id] else l.key == SegmentKey(x.id) && l.sortMs == x.core.start)
  }

  /** A line still being spoken: the microphone's are one's own. */
  predicate SaysDraft(l: Line, d: Draft) {
    && l.isDraft && l.id == l.key == DraftKey(d.channel, d.start) && l.text == d.text
    && (if d.channel == Mic then l.speaker == Me else l.speaker == Them)
    && l.sortMs == l.start == d.start && l.end == d.end
  }

  /** The transcript in order of sort times, one line for each segment and each draft, no more. */
  lemma LinesSay(t: LiveState) returns (built: seq<Line>)
    ensures multiset(Lines(t)) == multiset(built) && |built| == |t.segments| + |t.drafts|
    ensures forall i :: 0 <= i < |t.segments| ==> SaysSegment(built[i], t.segments[i], t.slots)
    ensures forall i :: 0 <= i < |t.drafts| ==> SaysDraft(built[|t.segments| + i], t.drafts[i])
    ensures forall i, j :: 0 <= i < j < |Lines(t)| ==> Lines(t)[i].sortMs <= Lines(t)[j].sortMs
  {
    built := SegmentLines(t) + DraftLines(t.drafts);
    StableSortSorts(built, LineSort);
    forall i, j | 0 <= i < j < |Lines(t)| ensures Lines(t)[i].sortMs <= Lines(t)[j].sortMs {
      assert LineSort(Lines(t)[i]) <= LineSort(Lines(t)[j]);
    }
  }
}
