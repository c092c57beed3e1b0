/** Why a lossy, reordered, overlapping event stream is safe to fold: the part of the state that
    matters is a join-semilattice, and every event only joins its own contribution into it. */
module Convergence {
  import opened Options
  import opened Reducer
  import opened ReducerInvariant

  /** What converges. The order of events with equal start times, drafts, row slots and speaker
      labels do not, and are not part of it. */
  datatype View = View(
    segments: set<(string, Core)>, markers: set<Marker>, copilot: Copilot,
    who: map<string, Assignment>, streamMs: int)

  const BOTTOM := View({}, {}, EMPTY_COPILOT, map[], 0)

  /** What the server fixes once and for all: a segment's core by its id, the copilot's findings by
      their version, who spoke a segment by the assignment's rev. */
  datatype World = World(
    core: string -> Core, findings: int -> seq<Finding>, voice: (string, int) -> (Option<string>, bool))

  function Tagged(list: seq<Segment>): set<(string, Core)> { set x | x in list :: (x.id, x.core) }

  ghost function ViewOf(s: LiveState): View {
    View(Tagged(s.segments), (set m | m in s.markers), s.copilot, s.assignments, s.streamMs)
  }

  // ---- the semilattice -------------------------------------------------------------------

  ghost predicate Leq(a: View, b: View) {
    && a.segments <= b.segments && a.markers <= b.markers
    && a.copilot.version <= b.copilot.version
    && (forall id :: id in a.who ==> id in b.who && a.who[id].rev <= b.who[id].rev)
    && a.streamMs <= b.streamMs
  }

  function JoinWho(a: map<string, Assignment>, b: map<string, Assignment>): map<string, Assignment> {
    map id | id in a.Keys + b.Keys ::
      if id in b && (id !in a || a[id].rev < b[id].rev) then b[id] else a[id]
  }

  function Join(a: View, b: View): View {
    View(a.segments + b.segments, a.markers + b.markers,
         if a.copilot.version < b.copilot.version then b.copilot else a.copilot,
         JoinWho(a.who, b.who), Max(a.streamMs, b.streamMs))
  }

  function JoinAll(v: View, vs: seq<View>): View {
    if vs == [] then v else Join(JoinAll(v, vs[..|vs| - 1]), vs[|vs| - 1])
  }

  ghost predicate GenuineCopilot(w: World, c: Copilot) {
    c == EMPTY_COPILOT || (c.version > -1 && c.findings == w.findings(c.version))
  }

  ghost predicate GenuineWho(w: World, who: map<string, Assignment>) {
    forall id :: id in who ==> who[id].rev > -1 && (who[id].speakerId, who[id].mixed) == w.voice(id, who[id].rev)
  }

  ghost predicate Genuine(w: World, v: View) {
    && (forall p :: p in v.segments ==> p.1 == w.core(p.0))
    && GenuineCopilot(w, v.copilot) && GenuineWho(w, v.who)
  }

  lemma LeqTransitive(a: View, b: View, c: View)
    requires Leq(a, b) && Leq(b, c)
    ensures Leq(a, c)
  {
  }

  /** On what the server can send, the order is antisymmetric: contents follow from versions. */
  lemma LeqAntisymmetric(w: World, a: View, b: View)
    requires Genuine(w, a) && Genuine(w, b) && Leq(a, b) && Leq(b, a)
    ensures a == b
  {
    assert a.who.Keys == b.who.Keys;
    forall id | id in a.who ensures a.who[id] == b.who[id] {
      assert a.who[id].rev == b.who[id].rev;
    }
    assert a.who == b.who;
  }

  lemma JoinIsLeast(a: View, b: View, u: View)
    ensures Leq(a, Join(a, b)) && Leq(b, Join(a, b))
    ensures Leq(a, u) && Leq(b, u) ==> Leq(Join(a, b), u)
  {
  }

  lemma {:induction false} JoinAllIsLeast(v: View, vs: seq<View>, u: View)
    ensures Leq(v, JoinAll(v, vs)) && forall x :: x in vs ==> Leq(x, JoinAll(v, vs))
    ensures Leq(v, u) && (forall x :: x in vs ==> Leq(x, u)) ==> Leq(JoinAll(v, vs), u)
  {
    if vs == [] {
    } else {
      var init, last := vs[..|vs| - 1], vs[|vs| - 1];
      assert vs == init + [last];
      JoinAllIsLeast(v, init, u);
      var j := JoinAll(v, init);
      JoinIsLeast(j, last, u);
      forall x | x in vs ensures Leq(x, JoinAll(v, vs)) {
        if x in init {
          LeqTransitive(x, j, JoinAll(v, vs));
        }
      }
      LeqTransitive(v, j, JoinAll(v, vs));
    }
  }

  lemma {:induction false} JoinAllGenuine(w: World, v: View, vs: seq<View>)
    requires Genuine(w, v) && forall x :: x in vs ==> Genuine(w, x)
    ensures Genuine(w, JoinAll(v, vs))
  {
    if vs == [] {
    } else {
      assert vs == vs[..|vs| - 1] + [vs[|vs| - 1]];
      JoinAllGenuine(w, v, vs[..|vs| - 1]);
      JoinGenuine(w, JoinAll(v, vs[..|vs| - 1]), vs[|vs| - 1]);
    }
  }

  /** A join over a list depends only on which views are in it. */
  lemma JoinAllSameSet(w: World, v: View, a: seq<View>, b: seq<View>)
    requires Genuine(w, v)
    requires forall x :: x in a ==> Genuine(w, x)
    requires forall x :: x in a <==> x in b
    ensures JoinAll(v, a) == JoinAll(v, b)
  {
    JoinAllGenuine(w, v, a);
    JoinAllGenuine(w, v, b);
    JoinAllIsLeast(v, a, JoinAll(v, b));
    JoinAllIsLeast(v, b, JoinAll(v, a));
    LeqAntisymmetric(w, JoinAll(v, a), JoinAll(v, b));
  }

  // ---- what one event contributes --------------------------------------------------------

  function KnownCopilot(c: Copilot): Copilot { if c.version <= -1 then EMPTY_COPILOT else c }

  function Contribution(e: Event): View {
    match e
    case SegmentMsg(s) => BOTTOM.(segments := {(s.id, s.core)}, streamMs := Max(0, s.core.end))
    case SpeakerUpdate(_, msgs) => BOTTOM.(who := AssignAll(map[], msgs))
    case DraftMsg(d) => BOTTOM.(streamMs := Max(0, d.end))
    case MarkerMsg(m) => BOTTOM.(markers := {m})
    case CopilotMsg(c) => BOTTOM.(copilot := KnownCopilot(c))
    case Snapshot(d) =>
      View(Tagged(d.segments), (set m | m in d.markers), KnownCopilot(d.copilot),
           AssignAll(map[], SnapshotAssignments(d.segments)), MaxEnd(0, d.segments))
    case Banner => BOTTOM
  }

  function Contributions(events: seq<Event>): seq<View> {
    seq(|events|, i requires 0 <= i < |events| => Contribution(events[i]))
  }

  ghost predicate GenuineMsg(w: World, a: AssignMsg) {
    (a.speakerId, a.mixed.Some? && a.mixed.value) == w.voice(a.segmentId, a.rev)
  }

  ghost predicate GenuineSegments(w: World, segments: seq<Segment>) {
    && (forall s :: s in segments ==> s.core == w.core(s.id))
    && (forall a :: a in SnapshotAssignments(segments) ==> GenuineMsg(w, a))
  }

  ghost predicate GenuineEvent(w: World, e: Event) {
    match e
    case SegmentMsg(s) => s.core == w.core(s.id)
    case SpeakerUpdate(_, msgs) => forall a :: a in msgs ==> GenuineMsg(w, a)
    case CopilotMsg(c) => c.findings == w.findings(c.version)
    case Snapshot(d) => GenuineSegments(w, d.segments) && d.copilot.findings == w.findings(d.copilot.version)
    case _ => true
  }

  lemma UpsertTags(w: World, list: seq<Segment>, seg: Segment)
    requires SegmentsOk(list) && seg.core == w.core(seg.id)
    requires forall s :: s in list ==> s.core == w.core(s.id)
    ensures Tagged(Upsert(list, seg)) == Tagged(list) + {(seg.id, seg.core)}
    ensures forall s :: s in Upsert(list, seg) ==> s.core == w.core(s.id)
  {
    UpsertKeeps(list, seg);
    var next := Upsert(list, seg);
    forall p | p in Tagged(list) ensures p in Tagged(next) {
      var x :| x in list && p == (x.id, x.core);
      if x.id == seg.id {
        assert p == (seg.id, seg.core) && seg in next;
      } else {
        assert x in next;
      }
    }
    assert seg in next;
  }

  lemma NoTags()
    ensures Tagged([]) == {}
  {
  }

  lemma TaggedSnoc(list: seq<Segment>, x: Segment)
    ensures Tagged(list + [x]) == Tagged(list) + {(x.id, x.core)}
  {
  }

  lemma {:induction false} UpsertAllTags(w: World, list: seq<Segment>, incoming: seq<Segment>)
    requires SegmentsOk(list) && forall s :: s in list ==> s.core == w.core(s.id)
    requires forall s :: s in incoming ==> s.core == w.core(s.id)
    ensures Tagged(UpsertAll(list, incoming)) == Tagged(list) + Tagged(incoming)
    ensures forall s :: s in UpsertAll(list, incoming) ==> s.core == w.core(s.id)
  {
    hide Upsert, SegmentsOk, Tagged;
    if incoming == [] {
      assert Tagged(incoming) == {} by {
        NoTags();
      }
    } else {
      var init, last := incoming[..|incoming| - 1], incoming[|incoming| - 1];
      assert incoming == init + [last];
      UpsertAllTags(w, list, init);
      UpsertAllKeeps(list, init);
      UpsertTags(w, UpsertAll(list, init), last);
      TaggedSnoc(init, last);
    }
  }

  lemma {:induction false} MaxEndIsMax(m: int, incoming: seq<Segment>)
    requires m >= 0
    ensures MaxEnd(m, incoming) == Max(m, MaxEnd(0, incoming))
  {
    if incoming == [] {
    } else {
      MaxEndIsMax(m, incoming[..|incoming| - 1]);
    }
  }

  lemma JoinWhoEmpty(who: map<string, Assignment>)
    ensures JoinWho(who, map[]) == who
  {
  }

  lemma MergeParts(w: World, s: LiveState, incoming: seq<Segment>)
    requires Inv(s) && forall x :: x in s.segments ==> x.core == w.core(x.id)
    requires forall x :: x in incoming ==> x.core == w.core(x.id)
    ensures Tagged(Merged(s, incoming).segments) == Tagged(s.segments) + Tagged(incoming)
    ensures Merged(s, incoming).streamMs == Max(s.streamMs, MaxEnd(0, incoming))
  {
    UpsertAllTags(w, s.segments, incoming);
    UpsertAllKeeps(s.segments, incoming);
    MaxEndIsMax(s.streamMs, incoming);
  }

  lemma MergeJoins(w: World, s: LiveState, incoming: seq<Segment>)
    requires Inv(s) && Genuine(w, ViewOf(s))
    requires forall x :: x in incoming ==> x.core == w.core(x.id)
    ensures ViewOf(Merged(s, incoming)) ==
      Join(ViewOf(s), BOTTOM.(segments := Tagged(incoming), streamMs := MaxEnd(0, incoming)))
  {
    forall x | x in s.segments ensures x.core == w.core(x.id) {
      assert (x.id, x.core) in ViewOf(s).segments;
    }
    MergeParts(w, s, incoming);
    JoinWhoEmpty(s.assignments);
  }

  lemma JoinWhoAssociative(a: map<string, Assignment>, b: map<string, Assignment>, c: map<string, Assignment>)
    ensures JoinWho(JoinWho(a, b), c) == JoinWho(a, JoinWho(b, c))
  {
  }

  function Single(a: AssignMsg): map<string, Assignment> {
    if a.rev > -1 then map[a.segmentId := AssignmentOf(a)] else map[]
  }

  lemma AssignJoinsOne(who: map<string, Assignment>, a: AssignMsg)
    requires forall id :: id in who ==> who[id].rev > -1
    ensures Assign(who, a) == JoinWho(who, Single(a))
  {
  }

  /** Taking in assignments one by one is joining what they would leave on their own. */
  lemma {:induction false} AssignJoins(who: map<string, Assignment>, msgs: seq<AssignMsg>)
    requires forall id :: id in who ==> who[id].rev > -1
    ensures AssignAll(who, msgs) == JoinWho(who, AssignAll(map[], msgs))
    ensures forall id :: id in AssignAll(map[], msgs) ==> AssignAll(map[], msgs)[id].rev > -1
    ensures forall id :: id in AssignAll(who, msgs) ==> AssignAll(who, msgs)[id].rev > -1
  {
    if msgs == [] {
      JoinWhoEmpty(who);
    } else {
      var init, last := msgs[..|msgs| - 1], msgs[|msgs| - 1];
      AssignJoins(who, init);
      var b := AssignAll(map[], init);
      AssignJoinsOne(b, last);
      AssignJoinsOne(AssignAll(who, init), last);
      JoinWhoAssociative(who, b, Single(last));
    }
  }

  lemma {:induction false} AssignGenuine(w: World, msgs: seq<AssignMsg>)
    requires forall a :: a in msgs ==> GenuineMsg(w, a)
    ensures GenuineWho(w, AssignAll(map[], msgs))
  {
    if msgs == [] {
    } else {
      assert msgs == msgs[..|msgs| - 1] + [msgs[|msgs| - 1]];
      AssignGenuine(w, msgs[..|msgs| - 1]);
      assert GenuineMsg(w, msgs[|msgs| - 1]);
    }
  }

  lemma ContributionGenuine(w: World, e: Event)
    requires GenuineEvent(w, e)
    ensures Genuine(w, Contribution(e))
  {
    match e
    case SpeakerUpdate(_, msgs) => AssignGenuine(w, msgs);
    case Snapshot(d) => AssignGenuine(w, SnapshotAssignments(d.segments));
    case _ =>
  }

  lemma JoinGenuine(w: World, a: View, b: View)
    requires Genuine(w, a) && Genuine(w, b)
    ensures Genuine(w, Join(a, b))
  {
  }

  lemma SnapshotParts(w: World, s: LiveState, d: Detail)
    requires Inv(s) && Genuine(w, ViewOf(s)) && GenuineSegments(w, d.segments)
    ensures var t := ApplySnapshot(s, d);
      && Tagged(t.segments) == Tagged(s.segments) + Tagged(d.segments)
      && t.streamMs == Max(s.streamMs, MaxEnd(0, d.segments))
      && t.assignments == JoinWho(s.assignments, AssignAll(map[], SnapshotAssignments(d.segments)))
      && (forall m :: m in t.markers <==> m in s.markers || m in d.markers)
      && t.copilot == ApplyCopilot(s, d.copilot).copilot
  {
    SnapshotFields(s, d);
    forall x | x in s.segments ensures x.core == w.core(x.id) {
      assert (x.id, x.core) in ViewOf(s).segments;
    }
    MergeParts(w, s, d.segments);
    assert forall id :: id in s.assignments ==> s.assignments[id].rev > -1;
    AssignJoins(s.assignments, SnapshotAssignments(d.segments));
    MarkersKeep(s.markers, d.markers);
  }

  lemma CopilotJoins(w: World, s: LiveState, c: Copilot)
    requires GenuineCopilot(w, s.copilot)
    ensures ApplyCopilot(s, c).copilot == if s.copilot.version < KnownCopilot(c).version then KnownCopilot(c) else s.copilot
  {
  }

  lemma JoinByParts(s: LiveState, t: LiveState, c: View)
    requires Tagged(t.segments) == Tagged(s.segments) + c.segments
    requires t.streamMs == Max(s.streamMs, c.streamMs) && t.assignments == JoinWho(s.assignments, c.who)
    requires forall m :: m in t.markers <==> m in s.markers || m in c.markers
    requires t.copilot == if s.copilot.version < c.copilot.version then c.copilot else s.copilot
    ensures ViewOf(t) == Join(ViewOf(s), c)
  {
    assert (set m | m in t.markers) == (set m | m in s.markers) + c.markers;
  }

  lemma SnapshotJoins(w: World, s: LiveState, d: Detail)
    requires Inv(s) && Genuine(w, ViewOf(s)) && GenuineSegments(w, d.segments)
    ensures ViewOf(ApplySnapshot(s, d)) == Join(ViewOf(s), Contribution(Snapshot(d)))
  {
    var t := ApplySnapshot(s, d);
    assert t.copilot == if s.copilot.version < KnownCopilot(d.copilot).version then KnownCopilot(d.copilot) else s.copilot by {
      SnapshotFields(s, d);
      CopilotJoins(w, s, d.copilot);
    }
    SnapshotParts(w, s, d);
    JoinByParts(s, t, Contribution(Snapshot(d)));
  }

  lemma StreamJoins(w: World, s: LiveState, e: Event)
    requires Inv(s) && Genuine(w, ViewOf(s)) && GenuineEvent(w, e) && !e.Snapshot?
    ensures ViewOf(Reduce(s, e)) == Join(ViewOf(s), Contribution(e))
  {
    hide Merged, AssignAll, AddMarker, ApplyDraft, SegmentsOk, DraftsOk, MarkersOk, UpsertAll;
    JoinWhoEmpty(s.assignments);
    match e
    case SegmentMsg(x) =>
      MergeJoins(w, s, [x]);
      assert Tagged([x]) == {(x.id, x.core)};
    case SpeakerUpdate(speakers, msgs) => AssignJoins(s.assignments, msgs);
    case MarkerMsg(m) =>
      MarkerKeeps(s.markers, m);
      assert (set x | x in AddMarker(s.markers, m)) == (set x | x in s.markers) + {m};
    case CopilotMsg(c) => CopilotJoins(w, s, c);
    case DraftMsg(d) =>
    case Banner =>
  }

  /** The step: one event joins its contribution into the view, and does nothing else to it. */
  lemma StepJoins(w: World, s: LiveState, e: Event)
    requires Inv(s) && Genuine(w, ViewOf(s)) && GenuineEvent(w, e)
    ensures ViewOf(Reduce(s, e)) == Join(ViewOf(s), Contribution(e))
    ensures Genuine(w, ViewOf(Reduce(s, e)))
  {
    ContributionGenuine(w, e);
    JoinGenuine(w, ViewOf(s), Contribution(e));
    if e.Snapshot? {
      SnapshotJoins(w, s, e.detail);
    } else {
      StreamJoins(w, s, e);
    }
  }

  /** Folding events joins all their contributions. */
  lemma {:induction false} FoldJoins(w: World, s: LiveState, events: seq<Event>)
    requires Inv(s) && Genuine(w, ViewOf(s)) && forall e :: e in events ==> GenuineEvent(w, e)
    ensures Inv(Fold(s, events)) && Genuine(w, ViewOf(Fold(s, events)))
    ensures ViewOf(Fold(s, events)) == JoinAll(ViewOf(s), Contributions(events))
  {
    hide Inv, GenuineEvent, Genuine, Join, Reduce, Contribution, ViewOf;
    HistoryGrows(s, events);
    if events == [] {
      assert Contributions(events) == [];
    } else {
      var init, last := events[..|events| - 1], events[|events| - 1];
      assert events == init + [last];
      FoldJoins(w, s, init);
      StepJoins(w, Fold(s, init), last);
      assert Contributions(events)[..|events| - 1] == Contributions(init);
    }
  }

  /** Order and repetition do not matter: two runs over the same set of events, however permuted
      and duplicated, show the same segments, markers, copilot, assignments and stream clock. */
  lemma OrderIndependent(w: World, s: LiveState, a: seq<Event>, b: seq<Event>)
    requires Inv(s) && Genuine(w, ViewOf(s)) && forall e :: e in a ==> GenuineEvent(w, e)
    requires forall e :: e in a <==> e in b
    ensures ViewOf(Fold(s, a)) == ViewOf(Fold(s, b))
  {
    FoldJoins(w, s, a);
    FoldJoins(w, s, b);
    var ca, cb := Contributions(a), Contributions(b);
    forall x | x in ca ensures Genuine(w, x) && x in cb {
      var i :| 0 <= i < |a| && ca[i] == x;
      ContributionGenuine(w, a[i]);
      assert a[i] in b;
      var j :| 0 <= j < |b| && b[j] == a[i];
      assert cb[j] == x;
    }
    forall x | x in cb ensures x in ca {
      var j :| 0 <= j < |b| && cb[j] == x;
      assert b[j] in a;
      var i :| 0 <= i < |a| && a[i] == b[j];
      assert ca[i] == x;
    }
    JoinAllSameSet(w, ViewOf(s), ca, cb);
  }

  // ---- the order on screen ---------------------------------------------------------------

  function Shown(list: seq<Segment>): (r: seq<(string, Core)>) {
    seq(|list|, i requires 0 <= i < |list| => (list[i].id, list[i].core))
  }

  ghost predicate DistinctStarts(v: View) {
    forall p, q :: p in v.segments && q in v.segments && p.1.start == q.1.start ==> p == q
  }

  /** With distinct start times the transcript's order follows from its set of segments. */
  lemma {:induction false} ShownDetermined(a: seq<Segment>, b: seq<Segment>)
    requires SegmentsOk(a) && SegmentsOk(b) && Tagged(a) == Tagged(b)
    requires forall p, q :: p in Tagged(a) && q in Tagged(a) && p.1.start == q.1.start ==> p == q
    ensures Shown(a) == Shown(b)
  {
    if a == [] {
      assert forall x :: x in b ==> (x.id, x.core) in Tagged(b);
    } else {
      var x := a[|a| - 1];
      assert (x.id, x.core) in Tagged(b);
      var y0 :| y0 in b && (y0.id, y0.core) == (x.id, x.core);
      assert b != [];
      var y := b[|b| - 1];
      assert (y.id, y.core) in Tagged(a);
      var x0 :| x0 in a && (x0.id, x0.core) == (y.id, y.core);
      LastIsGreatest(a, x0);
      LastIsGreatest(b, y0);
      assert (x.id, x.core) == (y.id, y.core);
      InitTags(a);
      InitTags(b);
      ShownDetermined(a[..|a| - 1], b[..|b| - 1]);
      assert Shown(a) == Shown(a[..|a| - 1]) + [(x.id, x.core)];
      assert Shown(b) == Shown(b[..|b| - 1]) + [(y.id, y.core)];
    }
  }

  lemma LastIsGreatest(a: seq<Segment>, x: Segment)
    requires SegmentsOk(a) && x in a
    ensures x.core.start <= a[|a| - 1].core.start
  {
    var i :| 0 <= i < |a| && a[i] == x;
    assert SegStart(a[i]) <= SegStart(a[|a| - 1]) || i == |a| - 1;
  }

  lemma InitTags(a: seq<Segment>)
    requires SegmentsOk(a) && a != []
    ensures SegmentsOk(a[..|a| - 1])
    ensures Tagged(a[..|a| - 1]) == Tagged(a) - {(a[|a| - 1].id, a[|a| - 1].core)}
  {
    var init, last := a[..|a| - 1], a[|a| - 1];
    assert a == init + [last];
    DistinctInit(a);
  }

  /** With distinct start times even the order of the lines is the same. */
  lemma OrderIndependentSequence(w: World, s: LiveState, a: seq<Event>, b: seq<Event>)
    requires Inv(s) && Genuine(w, ViewOf(s)) && forall e :: e in a ==> GenuineEvent(w, e)
    requires forall e :: e in a <==> e in b
    requires DistinctStarts(ViewOf(Fold(s, a)))
    ensures Shown(Fold(s, a).segments) == Shown(Fold(s, b).segments)
  {
    OrderIndependent(w, s, a, b);
    HistoryGrows(s, a);
    HistoryGrows(s, b);
    ShownDetermined(Fold(s, a).segments, Fold(s, b).segments);
  }
}
