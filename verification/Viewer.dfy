/** One viewer watching one session (web/src/ws.ts) through the bus (server/src/jarvis_live/bus.py):
    records are persisted, then published into a bounded queue that may drop them; connections come
    and go; REST snapshots are read at one moment and shown at a later one, in any order. Every
    interleaving of these steps is a run. */
module Viewer {
  import opened Options
  import opened Sorting
  import opened Reducer
  import opened ReducerInvariant
  import opened Convergence
  import Bus

  /** `need` is bookkeeping for the proof: how much of the log only a snapshot can still bring. */
  datatype Sys = Sys(
    log: seq<Event>, pending: set<nat>, subscribed: bool, queue: seq<Event>,
    inflight: set<(nat, Detail)>, need: nat, viewer: LiveState)

  const START := Sys([], {}, false, [], {}, 0, INITIAL)

  datatype Label =
    | Persist(e: Event)         // a record is committed to the database
    | Publish(i: nat)           // and only then published
    | Relay(e: Event)           // drafts and banners are published without being stored
    | Subscribe                 // the socket opens: an empty queue
    | Hangup                    // the socket closes: what was queued is gone
    | Deliver                   // the next queued event reaches the reducer
    | Read(d: Detail)           // the server answers a snapshot request
    | Show(n: nat, d: Detail)   // that answer reaches the reducer
    | Lose(n: nat, d: Detail)   // or the request fails

  /** What the persisted records amount to. */
  function Truth(log: seq<Event>): View { JoinAll(BOTTOM, Contributions(log)) }

  predicate Stored(e: Event) { e.SegmentMsg? || e.SpeakerUpdate? || e.MarkerMsg? || e.CopilotMsg? }

  predicate Named(a: Assignment) { a.speakerId.Some? && a.speakerId.value != "" }

  predicate HasTag(segments: set<(string, Core)>, id: string) { exists p :: p in segments && p.0 == id }

  /** A row of the REST answer carries the newest stored assignment of its segment, or none. */
  predicate RowOf(s: Segment, who: map<string, Assignment>) {
    if s.id in who then
      s.speakerId == who[s.id].speakerId && s.speakerRev == Some(who[s.id].rev) && s.mixed == Some(who[s.id].mixed)
    else s.speakerId == None
  }

  /** `d` is what the REST API answers when exactly `log` has been committed. */
  ghost predicate SnapshotOf(d: Detail, log: seq<Event>) {
    var t := Truth(log);
    && DistinctBy(d.segments, SegId)
    && Tagged(d.segments) == t.segments
    && (forall s :: s in d.segments ==> RowOf(s, t.who))
    && (forall m :: m in d.markers <==> m in t.markers)
    && KnownCopilot(d.copilot) == t.copilot
  }

  ghost predicate Can(w: World, s: Sys, l: Label) {
    match l
    case Persist(e) =>
      && Stored(e) && GenuineEvent(w, e)
      && (e.SpeakerUpdate? ==> forall a :: a in e.assignments ==> HasTag(Truth(s.log).segments, a.segmentId))
    case Publish(i) => i in s.pending
    case Relay(e) => e.DraftMsg? || e.Banner?
    case Subscribe => !s.subscribed
    case Hangup => s.subscribed
    case Deliver => s.subscribed && s.queue != []
    case Read(d) => SnapshotOf(d, s.log) && d.copilot.findings == w.findings(d.copilot.version)
    case Show(n, d) => (n, d) in s.inflight
    case Lose(n, d) => (n, d) in s.inflight
  }

  /** The queue is one of the bus: a bound of zero is none. */
  predicate Room(cap: nat, s: Sys) { !Bus.Full(cap, s.queue) }

  function Apply(cap: nat, s: Sys, l: Label): Sys {
    match l
    case Persist(e) => s.(log := s.log + [e], pending := s.pending + {|s.log|})
    case Publish(i) =>
      var t := s.(pending := s.pending - {i});
      if !s.subscribed then t
      else if Room(cap, s) && i < |s.log| then t.(queue := Bus.Offered(cap, s.queue, s.log[i]))
      else t.(need := |s.log|)
    case Relay(e) => if s.subscribed then s.(queue := Bus.Offered(cap, s.queue, e)) else s
    case Subscribe => s.(subscribed := true, queue := [], need := |s.log|)
    case Hangup => s.(subscribed := false, queue := [])
    case Deliver => if s.queue == [] then s else s.(viewer := Reduce(s.viewer, s.queue[0]), queue := s.queue[1..])
    case Read(d) => s.(inflight := s.inflight + {(|s.log|, d)})
    case Show(n, d) =>
      s.(inflight := s.inflight - {(n, d)}, viewer := Reduce(s.viewer, Snapshot(d)),
         need := if n >= s.need then 0 else s.need)
    case Lose(n, d) => s.(inflight := s.inflight - {(n, d)})
  }

  ghost predicate Legal(w: World, cap: nat, s: Sys, labels: seq<Label>)
    decreases |labels|
  {
    labels == [] || (Can(w, s, labels[0]) && Legal(w, cap, Apply(cap, s, labels[0]), labels[1..]))
  }

  function Run(cap: nat, s: Sys, labels: seq<Label>): Sys
    decreases |labels|
  {
    if labels == [] then s else Run(cap, Apply(cap, s, labels[0]), labels[1..])
  }

  // ---- the log and its snapshots ---------------------------------------------------------

  ghost predicate LogOk(w: World, log: seq<Event>) {
    && (forall e :: e in log ==> Stored(e) && GenuineEvent(w, e))
    && (forall id :: id in Truth(log).who ==> HasTag(Truth(log).segments, id))
  }

  lemma TruthGenuine(w: World, log: seq<Event>)
    requires forall e :: e in log ==> GenuineEvent(w, e)
    ensures Genuine(w, Truth(log))
  {
    forall x | x in Contributions(log) ensures Genuine(w, x) {
      var i :| 0 <= i < |log| && Contributions(log)[i] == x;
      ContributionGenuine(w, log[i]);
    }
    JoinAllGenuine(w, BOTTOM, Contributions(log));
  }

  lemma TruthStep(log: seq<Event>, e: Event)
    ensures Truth(log + [e]) == Join(Truth(log), Contribution(e))
    ensures Leq(Truth(log), Truth(log + [e]))
  {
    hide Contribution, Leq, Join;
    assert Contributions(log + [e])[..|log|] == Contributions(log);
    JoinIsLeast(Truth(log), Contribution(e), BOTTOM);
  }

  lemma TruthHas(log: seq<Event>, i: nat)
    requires i < |log|
    ensures Leq(Contribution(log[i]), Truth(log))
  {
    JoinAllIsLeast(BOTTOM, Contributions(log), BOTTOM);
    assert Contributions(log)[i] in Contributions(log);
  }

  lemma {:induction false} TruthGrows(log: seq<Event>, n: nat)
    requires n <= |log|
    ensures Leq(Truth(log[..n]), Truth(log))
    decreases |log| - n
  {
    if n < |log| {
      TruthGrows(log, n + 1);
      assert log[..n + 1] == log[..n] + [log[n]];
      TruthStep(log[..n], log[n]);
      LeqTransitive(Truth(log[..n]), Truth(log[..n + 1]), Truth(log));
    } else {
      assert log[..n] == log;
    }
  }

  /** The stream clock of the truth is that of its segments. */
  lemma {:induction false} TruthClock(log: seq<Event>)
    requires forall e :: e in log ==> Stored(e)
    ensures Truth(log).streamMs >= 0
    ensures Truth(log).streamMs == 0 || exists p :: p in Truth(log).segments && p.1.end == Truth(log).streamMs
  {
    if log == [] {
    } else {
      var init, last := log[..|log| - 1], log[|log| - 1];
      assert log == init + [last];
      TruthClock(init);
      TruthStep(init, last);
      assert Truth(init).segments <= Truth(log).segments;
      if last.SegmentMsg? {
        assert (last.segment.id, last.segment.core) in Truth(log).segments;
      } else {
        assert Stored(last);
        assert Truth(log).streamMs == Truth(init).streamMs;
      }
    }
  }

  lemma KnownSnoc(segments: seq<Segment>)
    requires segments != []
    ensures forall id :: Known(segments, id) <==> Known(segments[..|segments| - 1], id) || id == segments[|segments| - 1].id
  {
    var init, last := segments[..|segments| - 1], segments[|segments| - 1];
    assert segments == init + [last];
    forall id ensures Known(segments, id) <==> Known(init, id) || id == last.id {
      assert id == last.id ==> last in segments;
    }
  }

  /** The newest assignments that name someone, of the segments listed. */
  ghost function NamedRows(segments: seq<Segment>, who: map<string, Assignment>): map<string, Assignment> {
    map id | id in who && Named(who[id]) && Known(segments, id) :: who[id]
  }

  lemma NamedRowsSnoc(segments: seq<Segment>, who: map<string, Assignment>)
    requires segments != []
    ensures var init, id := NamedRows(segments[..|segments| - 1], who), segments[|segments| - 1].id;
      NamedRows(segments, who) == if id in who && Named(who[id]) then init[id := who[id]] else init
  {
    KnownSnoc(segments);
    hide Known, Named;
  }

  /** A snapshot's rows, assigned in their order, give just those. */
  lemma {:induction false} RowsAssign(segments: seq<Segment>, who: map<string, Assignment>)
    requires DistinctBy(segments, SegId) && forall s :: s in segments ==> RowOf(s, who)
    requires forall id :: id in who ==> who[id].rev > -1
    ensures AssignAll(map[], SnapshotAssignments(segments)) == NamedRows(segments, who)
  {
    if segments == [] {
    } else {
      var init, last := segments[..|segments| - 1], segments[|segments| - 1];
      assert segments == init + [last];
      DistinctInit(segments);
      RowsAssign(init, who);
      NamedRowsSnoc(segments, who);
      assert RowOf(last, who) && last.id !in NamedRows(init, who);
      if HasSpeaker(last) {
        var msgs := SnapshotAssignments(segments);
        assert msgs[..|msgs| - 1] == SnapshotAssignments(init);
        assert AssignmentOf(AssignMsgOf(last)) == who[last.id];
      } else {
        assert last.id !in who || !Named(who[last.id]);
        assert SnapshotAssignments(segments) == SnapshotAssignments(init);
      }
    }
  }

  /** A snapshot contributes the truth it was read from, except for segments whose newest
      assignment names nobody: those the reducer filters out of it. */
  lemma SnapshotContributes(w: World, d: Detail, log: seq<Event>)
    requires LogOk(w, log) && SnapshotOf(d, log)
    ensures var c, t := Contribution(Snapshot(d)), Truth(log);
      && c.segments == t.segments && c.markers == t.markers && c.copilot == t.copilot
      && c.streamMs == t.streamMs
      && c.who == map id | id in t.who && Named(t.who[id]) :: t.who[id]
  {
    hide Truth, AssignAll, SnapshotAssignments, MaxEnd;
    var c, t := Contribution(Snapshot(d)), Truth(log);
    TruthGenuine(w, log);
    RowsAssign(d.segments, t.who);
    forall id | id in t.who ensures Known(d.segments, id) {
      var p :| p in t.segments && p.0 == id;
      assert p in Tagged(d.segments);
    }
    ClockOfRows(log, d.segments);
  }

  lemma ClockOfRows(log: seq<Event>, segments: seq<Segment>)
    requires forall e :: e in log ==> Stored(e)
    requires Tagged(segments) == Truth(log).segments
    ensures MaxEnd(0, segments) == Truth(log).streamMs
  {
    TruthClock(log);
    forall s | s in segments ensures s.core.end <= Truth(log).streamMs {
      assert (s.id, s.core) in Tagged(segments);
      SegmentClock(log, (s.id, s.core));
    }
    if Truth(log).streamMs != 0 {
      var p :| p in Truth(log).segments && p.1.end == Truth(log).streamMs;
      var s :| s in segments && p == (s.id, s.core);
    }
  }

  lemma {:induction false} SegmentClock(log: seq<Event>, p: (string, Core))
    requires forall e :: e in log ==> Stored(e)
    requires p in Truth(log).segments
    ensures p.1.end <= Truth(log).streamMs
  {
    if log == [] {
    } else {
      var init, last := log[..|log| - 1], log[|log| - 1];
      assert log == init + [last];
      TruthStep(init, last);
      if p in Truth(init).segments {
        SegmentClock(init, p);
      }
    }
  }

  lemma SnapshotGenuine(w: World, d: Detail, log: seq<Event>)
    requires LogOk(w, log) && SnapshotOf(d, log)
    ensures GenuineSegments(w, d.segments)
  {
    var t := Truth(log);
    TruthGenuine(w, log);
    RowsAssign(d.segments, t.who);
    forall s | s in d.segments ensures s.core == w.core(s.id) {
      assert (s.id, s.core) in Tagged(d.segments);
    }
    forall a | a in SnapshotAssignments(d.segments) ensures GenuineMsg(w, a) {
      RowsRev(d.segments, t.who, a);
    }
  }

  lemma RowsRev(segments: seq<Segment>, who: map<string, Assignment>, a: AssignMsg)
    requires forall s :: s in segments ==> RowOf(s, who)
    requires a in SnapshotAssignments(segments)
    ensures a.segmentId in who && AssignmentOf(a) == who[a.segmentId]
  {
    assert segments == segments[..|segments| - 1] + [segments[|segments| - 1]];
    if a !in SnapshotAssignments(segments[..|segments| - 1]) {
      assert segments[|segments| - 1] in segments;
    }
  }
}
