/** The promises of web/src/ws.ts: nothing published is lost across the snapshot, what a full queue
    drops comes back with a later poll, and the one thing that does not. */
module ViewerConvergence {
  import opened Options
  import opened Sorting
  import opened Reducer
  import opened ReducerInvariant
  import opened Convergence
  import opened Viewer
  import opened ViewerSafety

  /** Who is shown as having spoken a segment, if anyone. */
  function Voice(who: map<string, Assignment>, id: string): Option<string> {
    if id in who && Named(who[id]) then who[id].speakerId else None
  }

  /** The screen shows the truth: exactly its segments, markers and copilot, and every newest
      assignment that names someone. The clock is at least as far. */
  ghost predicate Agrees(v: View, t: View) {
    && v.segments == t.segments && v.markers == t.markers && v.copilot == t.copilot
    && t.streamMs <= v.streamMs
    && forall id :: id in t.who && Named(t.who[id]) ==> id in v.who && v.who[id] == t.who[id]
  }

  lemma SameCopilot(w: World, a: View, b: View)
    requires Genuine(w, a) && Genuine(w, b) && a.copilot.version == b.copilot.version
    ensures a.copilot == b.copilot
  {
  }

  lemma AllCovered(w: World, log: seq<Event>, v: View)
    requires LogOk(w, log) && Genuine(w, v) && NoMore(v, Truth(log)) && v.streamMs >= 0
    requires forall i: nat :: i < |log| ==> Covered(log, v, log[i])
    ensures Agrees(v, Truth(log))
  {
    hide Contribution, JoinAll, Named;
    var t := Truth(log);
    TruthGenuine(w, log);
    var u := v.(who := t.who);
    forall x | x in Contributions(log) ensures Leq(x, u) {
      var i :| 0 <= i < |log| && Contributions(log)[i] == x;
      TruthHas(log, i);
      assert Covered(log, v, log[i]);
    }
    BottomLeast(w, v);
    JoinAllIsLeast(BOTTOM, Contributions(log), u);
    SameCopilot(w, v, t);
    forall id | id in t.who && Named(t.who[id]) ensures id in v.who && v.who[id] == t.who[id] {
      NewestShown(w, log, v, id);
    }
  }

  lemma BottomLeast(w: World, v: View)
    requires Genuine(w, v) && v.streamMs >= 0
    ensures Leq(BOTTOM, v)
  {
  }

  /** Two stored assignments of one segment at one rev say the same. */
  lemma NewestNotBlank(w: World, log: seq<Event>, id: string)
    requires LogOk(w, log) && id in Truth(log).who && Named(Truth(log).who[id])
    ensures !Blank(log, id, Truth(log).who[id].rev)
  {
    var top := Truth(log).who[id];
    TruthGenuine(w, log);
    assert (top.speakerId, top.mixed) == w.voice(id, top.rev);
    forall k | 0 <= k < |log| && Blanks(log[k], id, top.rev) ensures false {
      TruthHas(log, k);
      assert log[k] in log;
      ContributionGenuine(w, log[k]);
    }
  }

  lemma NewestShown(w: World, log: seq<Event>, v: View, id: string)
    requires LogOk(w, log) && GenuineWho(w, v.who) && NoMore(v, Truth(log))
    requires forall i: nat :: i < |log| ==> Covered(log, v, log[i])
    requires id in Truth(log).who && Named(Truth(log).who[id])
    ensures id in v.who && v.who[id] == Truth(log).who[id]
  {
    var top := Truth(log).who[id];
    NewestNotBlank(w, log, id);
    var k := TopAttained(log, id);
    assert Covered(log, v, log[k]);
    assert v.who[id].rev == top.rev;
    assert (top.speakerId, top.mixed) == w.voice(id, top.rev) by {
      TruthGenuine(w, log);
    }
  }

  // ---- nothing is lost -------------------------------------------------------------------

  /** No snapshot is owed, everything published has been delivered: the screen shows the truth. */
  lemma Quiescent(w: World, s: Sys)
    requires SysInv(w, s) && s.subscribed && s.need == 0 && s.pending == {} && s.queue == []
    ensures Agrees(ViewOf(s.viewer), Truth(s.log))
  {
    forall i: nat | i < |s.log| ensures Covered(s.log, ViewOf(s.viewer), s.log[i]) {
      assert i !in s.pending && s.log[i] !in s.queue;
    }
    AllCovered(w, s.log, ViewOf(s.viewer));
  }

  /** The connection holds and no publish meets a full queue. */
  predicate Smooth(cap: nat, s: Sys, labels: seq<Label>)
    decreases |labels|
  {
    labels == [] ||
    (!labels[0].Hangup? && !labels[0].Subscribe? && (labels[0].Publish? ==> Room(cap, s)) &&
     Smooth(cap, Apply(cap, s, labels[0]), labels[1..]))
  }

  lemma {:induction false} SmoothKeeps(w: World, cap: nat, s: Sys, labels: seq<Label>)
    requires SysInv(w, s) && Legal(w, cap, s, labels) && Smooth(cap, s, labels)
    ensures SysInv(w, Run(cap, s, labels))
    ensures Run(cap, s, labels).subscribed == s.subscribed && Run(cap, s, labels).need <= s.need
    decreases |labels|
  {
    if labels == [] {
    } else {
      StepInv(w, cap, s, labels[0]);
      SmoothKeeps(w, cap, Apply(cap, s, labels[0]), labels[1..]);
    }
  }

  /** The snapshot is read after the socket opened, so nothing published in between is lost. From
      any reachable connected state, whatever was dropped before, once a snapshot read in that state
      has been shown and the queue has drained, the screen shows everything stored, including what
      was stored while the snapshot was on its way and after. */
  lemma NoGap(w: World, cap: nat, s: Sys, d: Detail, mid: seq<Label>, rest: seq<Label>)
    requires Reached(w, cap, s, false) && s.subscribed && Can(w, s, Read(d))
    requires var s1 := Apply(cap, s, Read(d)); Legal(w, cap, s1, mid) && Smooth(cap, s1, mid)
    requires var s2 := Run(cap, Apply(cap, s, Read(d)), mid);
      Can(w, s2, Show(|s.log|, d)) && var s3 := Apply(cap, s2, Show(|s.log|, d));
      Legal(w, cap, s3, rest) && Smooth(cap, s3, rest)
    ensures var s2 := Run(cap, Apply(cap, s, Read(d)), mid);
      var end := Run(cap, Apply(cap, s2, Show(|s.log|, d)), rest);
      SysInv(w, end) && (end.pending == {} && end.queue == [] ==> Agrees(ViewOf(end.viewer), Truth(end.log)))
  {
    ReachedInv(w, cap, s);
    hide Reached;
    var s1 := Apply(cap, s, Read(d));
    StepInv(w, cap, s, Read(d));
    SmoothKeeps(w, cap, s1, mid);
    var s2 := Run(cap, s1, mid);
    StepInv(w, cap, s2, Show(|s.log|, d));
    var s3 := Apply(cap, s2, Show(|s.log|, d));
    assert s3.need == 0 && s3.subscribed;
    SmoothKeeps(w, cap, s3, rest);
    var end := Run(cap, s3, rest);
    if end.pending == {} && end.queue == [] {
      Quiescent(w, end);
    }
  }

  // ---- nothing dropped from the start ----------------------------------------------------

  /** Whatever is neither still to be published nor queued has reached the screen, assignments that
      name nobody included. */
  ghost predicate AllArrived(s: Sys) {
    forall i: nat :: i < |s.log| && i !in s.pending && s.log[i] !in s.queue ==> Leq(Contribution(s.log[i]), ViewOf(s.viewer))
  }

  lemma StepArrives(w: World, cap: nat, s: Sys, l: Label)
    requires SysInv(w, s) && Can(w, s, l) && AllArrived(s) && s.subscribed
    requires !l.Hangup? && !l.Subscribe? && (l.Publish? ==> Room(cap, s))
    ensures AllArrived(Apply(cap, s, l))
  {
    hide Contribution, Leq, Join, SysInv, Apply, Can;
    var t := Apply(cap, s, l);
    ViewGrows(w, cap, s, l);
    forall i: nat | i < |t.log| && i !in t.pending && t.log[i] !in t.queue ensures Leq(Contribution(t.log[i]), ViewOf(t.viewer)) {
      WaitsOrShown(w, cap, s, l, i);
      if Leq(Contribution(s.log[i]), ViewOf(s.viewer)) {
        LeqTransitive(Contribution(s.log[i]), ViewOf(s.viewer), ViewOf(t.viewer));
      }
    }
  }

  /** A record that waits for nothing after a step waited for nothing before, or was just delivered. */
  lemma WaitsOrShown(w: World, cap: nat, s: Sys, l: Label, i: nat)
    requires SysInv(w, s) && Can(w, s, l) && AllArrived(s) && s.subscribed
    requires !l.Hangup? && !l.Subscribe? && (l.Publish? ==> Room(cap, s))
    requires var t := Apply(cap, s, l); i < |t.log| && i !in t.pending && t.log[i] !in t.queue
    ensures i < |s.log| && Apply(cap, s, l).log[i] == s.log[i]
    ensures Leq(Contribution(s.log[i]), ViewOf(s.viewer)) || Leq(Contribution(s.log[i]), ViewOf(Apply(cap, s, l).viewer))
  {
    hide *;
    StillWaits(w, cap, s, l, i);
    if s.log[i] in s.queue {
      DeliverKeeps(w, cap, s);
      JoinIsLeast(ViewOf(s.viewer), Contribution(s.queue[0]), ViewOf(s.viewer));
    } else {
      Arrived(s, i);
    }
  }

  lemma StillWaits(w: World, cap: nat, s: Sys, l: Label, i: nat)
    requires Can(w, s, l) && s.subscribed && !l.Hangup? && !l.Subscribe? && (l.Publish? ==> Room(cap, s))
    requires var t := Apply(cap, s, l); i < |t.log| && i !in t.pending && t.log[i] !in t.queue
    ensures i < |s.log| && Apply(cap, s, l).log[i] == s.log[i] && i !in s.pending
    ensures s.log[i] in s.queue ==> l == Deliver && s.queue[0] == s.log[i]
  {
    hide Reduce, Truth, SnapshotOf, GenuineEvent;
  }

  lemma Arrived(s: Sys, i: nat)
    requires AllArrived(s) && i < |s.log| && i !in s.pending && s.log[i] !in s.queue
    ensures Leq(Contribution(s.log[i]), ViewOf(s.viewer))
  {
  }

  lemma ViewGrows(w: World, cap: nat, s: Sys, l: Label)
    requires SysInv(w, s) && Can(w, s, l)
    ensures Leq(ViewOf(s.viewer), ViewOf(Apply(cap, s, l).viewer))
  {
    var v := ViewOf(s.viewer);
    match l
    case Deliver =>
      DeliverKeeps(w, cap, s);
      JoinIsLeast(v, Contribution(s.queue[0]), v);
    case Show(n, d) =>
      ShowKeeps(w, cap, s, n, d);
      JoinIsLeast(v, Contribution(Snapshot(d)), v);
    case _ =>
  }

  lemma {:induction false} SmoothArrives(w: World, cap: nat, s: Sys, labels: seq<Label>)
    requires SysInv(w, s) && AllArrived(s) && s.subscribed && Legal(w, cap, s, labels) && Smooth(cap, s, labels)
    ensures SysInv(w, Run(cap, s, labels)) && AllArrived(Run(cap, s, labels))
    decreases |labels|
  {
    hide SysInv, AllArrived, Can;
    if labels == [] {
    } else {
      StepInv(w, cap, s, labels[0]);
      StepArrives(w, cap, s, labels[0]);
      StillSubscribed(cap, s, labels[0]);
      SmoothArrives(w, cap, Apply(cap, s, labels[0]), labels[1..]);
    }
  }

  lemma StillSubscribed(cap: nat, s: Sys, l: Label)
    requires s.subscribed && !l.Hangup?
    ensures Apply(cap, s, l).subscribed
  {
  }

  /** A viewer that was connected before anything was stored, and for whom nothing was dropped since,
      shows the whole truth once its queue has drained, assignments that name nobody included: every
      line names who is stored as its speaker. */
  lemma NothingMissed(w: World, cap: nat, s: Sys, labels: seq<Label>)
    requires Reached(w, cap, s, false) && s.subscribed && s.log == []
    requires Legal(w, cap, s, labels) && Smooth(cap, s, labels)
    ensures var end := Run(cap, s, labels);
      end.pending == {} && end.queue == [] ==>
        var v, t := ViewOf(end.viewer), Truth(end.log);
        v.(streamMs := 0) == t.(streamMs := 0) && t.streamMs <= v.streamMs &&
        forall id :: Voice(v.who, id) == Voice(t.who, id)
  {
    hide Reached, SysInv;
    ReachedInv(w, cap, s);
    SmoothArrives(w, cap, s, labels);
    var end := Run(cap, s, labels);
    if end.pending == {} && end.queue == [] {
      ArrivedIsTruth(w, end);
    }
  }

  lemma ArrivedIsTruth(w: World, s: Sys)
    requires SysInv(w, s) && AllArrived(s) && s.pending == {} && s.queue == []
    ensures var v, t := ViewOf(s.viewer), Truth(s.log); v.(streamMs := 0) == t.(streamMs := 0) && t.streamMs <= v.streamMs
  {
    hide Contribution, JoinAll;
    var v, t := ViewOf(s.viewer), Truth(s.log);
    TruthGenuine(w, s.log);
    forall x | x in Contributions(s.log) ensures Leq(x, v) {
      var i :| 0 <= i < |s.log| && Contributions(s.log)[i] == x;
      assert i !in s.pending && s.log[i] !in s.queue;
    }
    BottomLeast(w, v);
    JoinAllIsLeast(BOTTOM, Contributions(s.log), v);
    LeqAntisymmetric(w, v.(streamMs := 0), t.(streamMs := 0));
  }

  // ---- every poll ------------------------------------------------------------------------

  /** One poll answered from the whole log makes the screen right at once, connected or not, and
      whatever was dropped, except for who spoke: that comes right for a segment exactly if its
      newest assignment names someone or the screen named nobody. */
  lemma PollConverges(w: World, cap: nat, s: Sys, d: Detail)
    requires Reached(w, cap, s, false) && Can(w, s, Show(|s.log|, d))
    ensures var v, t := ViewOf(Apply(cap, s, Show(|s.log|, d)).viewer), Truth(s.log);
      && Agrees(v, t)
      && (forall id :: Voice(v.who, id) == Voice(t.who, id) <==>
            Voice(t.who, id).Some? || Voice(s.viewer.assignments, id).None?)
  {
    hide Reached;
    ReachedInv(w, cap, s);
    PollShows(w, cap, s, d);
    hide SysInv, Apply, Can;
    var t, seen, c := Truth(s.log), ViewOf(s.viewer), Contribution(Snapshot(d));
    var v := ViewOf(Apply(cap, s, Show(|s.log|, d)).viewer);
    SameCopilot(w, v, t);
    forall id ensures Voice(v.who, id) == Voice(t.who, id) <==> Voice(t.who, id).Some? || Voice(seen.who, id).None? {
      PollVoice(w, seen.who, t.who, c.who, id);
    }
    forall id | id in t.who && Named(t.who[id]) ensures id in v.who && v.who[id] == t.who[id] {
      PollVoice(w, seen.who, t.who, c.who, id);
    }
  }

  /** What is shown after such a poll: what was, joined with what the snapshot says. */
  lemma PollShows(w: World, cap: nat, s: Sys, d: Detail)
    requires SysInv(w, s) && Can(w, s, Show(|s.log|, d))
    ensures var t, seen, c := Truth(s.log), ViewOf(s.viewer), Contribution(Snapshot(d));
      var v := ViewOf(Apply(cap, s, Show(|s.log|, d)).viewer);
      && v == Join(seen, c) && Genuine(w, seen) && Genuine(w, t) && Genuine(w, v) && NoMore(seen, t) && NoMore(v, t)
      && c.segments == t.segments && c.markers == t.markers && c.copilot == t.copilot && c.streamMs == t.streamMs
      && c.who == map id | id in t.who && Named(t.who[id]) :: t.who[id]
  {
    ShowKeeps(w, cap, s, |s.log|, d);
    assert (|s.log|, d) in s.inflight && (|s.log|, d).0 == |s.log|;
    assert s.log[..|s.log|] == s.log;
    TruthGenuine(w, s.log);
    SnapshotContributes(w, d, s.log);
  }

  lemma PollVoice(w: World, seen: map<string, Assignment>, t: map<string, Assignment>, c: map<string, Assignment>, id: string)
    requires GenuineWho(w, seen) && GenuineWho(w, t)
    requires forall x :: x in seen ==> x in t && seen[x].rev <= t[x].rev
    requires c == map x | x in t && Named(t[x]) :: t[x]
    ensures Voice(JoinWho(seen, c), id) == Voice(t, id) <==> Voice(t, id).Some? || Voice(seen, id).None?
    ensures id in t && Named(t[id]) ==> JoinWho(seen, c)[id] == t[id]
  {
    if id in t && Named(t[id]) && id in seen && seen[id].rev == t[id].rev {
      assert (seen[id].speakerId, seen[id].mixed) == w.voice(id, t[id].rev);
    }
  }

  // ---- what does not come back -----------------------------------------------------------

  lemma {:induction false} RunSnoc(w: World, cap: nat, s: Sys, labels: seq<Label>, l: Label)
    requires Legal(w, cap, s, labels) && Can(w, Run(cap, s, labels), l)
    ensures Legal(w, cap, s, labels + [l])
    ensures Run(cap, s, labels + [l]) == Apply(cap, Run(cap, s, labels), l)
    decreases |labels|
  {
    if labels == [] {
      assert labels + [l] == [l];
      assert [l][1..] == [];
    } else {
      assert (labels + [l])[1..] == labels[1..] + [l];
      RunSnoc(w, cap, Apply(cap, s, labels[0]), labels[1..], l);
    }
  }

  const LINE := Segment("s", Core(Mic, Me, 0, 1, "hello", None), None, None, None, 0)
  const HEARD := AssignMsg("s", Some("A"), 1, None)
  const NOBODY := AssignMsg("s", None, 2, None)
  const ROWS := Detail([LINE.(speakerRev := Some(2), mixed := Some(false))], [], EMPTY_COPILOT, [])

  function OneLine(): World {
    World(_ => LINE.core, _ => [], (id, rev) => if rev == 1 then (Some("A"), false) else (None, false))
  }

  lemma UnassignedContributions()
    ensures Contribution(SegmentMsg(LINE)) == BOTTOM.(segments := {("s", LINE.core)}, streamMs := 1)
    ensures Contribution(SpeakerUpdate([], [HEARD])) == BOTTOM.(who := map["s" := Assignment(Some("A"), 1, false)])
    ensures Contribution(SpeakerUpdate([], [NOBODY])) == BOTTOM.(who := map["s" := Assignment(None, 2, false)])
  {
    assert [HEARD][..0] == [] && [NOBODY][..0] == [];
    assert AssignAll(map[], [HEARD]) == Assign(map[], HEARD);
    assert AssignAll(map[], [NOBODY]) == Assign(map[], NOBODY);
  }

  lemma UnassignedTruth()
    ensures var a, b, c := SegmentMsg(LINE), SpeakerUpdate([], [HEARD]), SpeakerUpdate([], [NOBODY]);
      && Truth([a]) == View({("s", LINE.core)}, {}, EMPTY_COPILOT, map[], 1)
      && Truth([a, b]) == View({("s", LINE.core)}, {}, EMPTY_COPILOT, map["s" := Assignment(Some("A"), 1, false)], 1)
      && Truth([a, b, c]) == View({("s", LINE.core)}, {}, EMPTY_COPILOT, map["s" := Assignment(None, 2, false)], 1)
  {
    var a, b, c := SegmentMsg(LINE), SpeakerUpdate([], [HEARD]), SpeakerUpdate([], [NOBODY]);
    hide *;
    TruthOfLine();
    UnassignedContributions();
    TruthStep([a], b);
    assert [a] + [b] == [a, b];
    JoinNewer({("s", LINE.core)}, map[], Assignment(Some("A"), 1, false));
    TruthStep([a, b], c);
    assert [a, b] + [c] == [a, b, c];
    JoinNewer({("s", LINE.core)}, map["s" := Assignment(Some("A"), 1, false)], Assignment(None, 2, false));
  }

  lemma TruthOfLine()
    ensures Truth([SegmentMsg(LINE)]) == View({("s", LINE.core)}, {}, EMPTY_COPILOT, map[], 1)
  {
    UnassignedContributions();
    assert Truth([]) == BOTTOM;
    hide Contribution, Truth, Leq;
    TruthStep([], SegmentMsg(LINE));
    assert [] + [SegmentMsg(LINE)] == [SegmentMsg(LINE)];
  }

  lemma JoinNewer(segments: set<(string, Core)>, who: map<string, Assignment>, a: Assignment)
    requires who.Keys <= {"s"} && ("s" in who ==> who["s"].rev < a.rev)
    ensures Join(View(segments, {}, EMPTY_COPILOT, who, 1), BOTTOM.(who := map["s" := a])) ==
      View(segments, {}, EMPTY_COPILOT, map["s" := a], 1)
  {
    assert JoinWho(who, map["s" := a]) == map["s" := a];
  }

  lemma UnassignedScreen()
    ensures var one := INITIAL.(segments := [LINE], streamMs := 1);
      && Reduce(INITIAL, SegmentMsg(LINE)) == one
      && Reduce(one, SpeakerUpdate([], [HEARD])) == one.(assignments := map["s" := Assignment(Some("A"), 1, false)])
  {
    assert [LINE][..0] == [] && [HEARD][..0] == [];
    assert AssignAll(map[], [HEARD]) == Assign(map[], HEARD);
    assert Hear(map[], []) == map[];
    assert UpsertAll([], [LINE]) == Upsert([], LINE);
    assert [] + [LINE] == [LINE];
    StableSortOfSorted([LINE], SegStart);
    assert Changed([], [LINE]);
    assert AddSlots(map[], [], [LINE]) == AddSlot(AddSlots(map[], [], []), [], LINE);
  }

  lemma UnassignedSnapshot(log: seq<Event>)
    requires log == [SegmentMsg(LINE), SpeakerUpdate([], [HEARD]), SpeakerUpdate([], [NOBODY])]
    ensures SnapshotOf(ROWS, log)
  {
    UnassignedTruth();
    assert Tagged(ROWS.segments) == {("s", LINE.core)};
  }

  lemma Next(w: World, cap: nat, s: Sys, held: bool, l: Label)
    requires Reached(w, cap, s, held) && Can(w, s, l) && (held ==> !l.Hangup?)
    ensures Reached(w, cap, Apply(cap, s, l), held)
  {
    var u :| Legal(w, cap, START, u) && Run(cap, START, u) == s && (held ==> Hangup !in u);
    RunSnoc(w, cap, START, u, l);
    assert held ==> Hangup !in u + [l];
  }

  const ONE := INITIAL.(segments := [LINE], streamMs := 1)
  const TWO := ONE.(assignments := map["s" := Assignment(Some("A"), 1, false)])
  const SAID := [SegmentMsg(LINE), SpeakerUpdate([], [HEARD])]
  const TAKEN_BACK := SAID + [SpeakerUpdate([], [NOBODY])]

  lemma LineShown(cap: nat, held: bool)
    ensures Reached(OneLine(), cap, Sys(SAID[..1], {}, true, [], {}, 0, ONE), held)
  {
    hide Reached;
    var blank := Sys([], {}, true, [], {}, 0, INITIAL);
    var a := SegmentMsg(LINE);
    UnassignedScreen();
    StartReached(cap, held);
    Next(OneLine(), cap, START, held, Subscribe);
    Next(OneLine(), cap, blank, held, Persist(a));
    assert {0} - {0} == {} && {} + {0} == {0} && [] + [a] == [a];
    Next(OneLine(), cap, blank.(log := [a], pending := {0}), held, Publish(0));
    Next(OneLine(), cap, blank.(log := [a], queue := [a]), held, Deliver);
    assert SAID[..1] == [a] && [a][1..] == [];
  }

  lemma StartReached(cap: nat, held: bool)
    ensures Reached(OneLine(), cap, START, held)
  {
    assert Legal(OneLine(), cap, START, []) && Run(cap, START, []) == START;
  }

  lemma SpeakerShown(cap: nat, held: bool)
    ensures Reached(OneLine(), cap, Sys(SAID, {}, true, [], {}, 0, TWO), held)
  {
    hide Reached;
    var seen := Sys(SAID[..1], {}, true, [], {}, 0, ONE);
    LineShown(cap, held);
    UnassignedScreen();
    UnassignedTruth();
    assert ("s", LINE.core) in Truth(SAID[..1]).segments;
    Next(OneLine(), cap, seen, held, Persist(SAID[1]));
    assert {1} - {1} == {} && {} + {1} == {1} && SAID[..1] + [SAID[1]] == SAID;
    Next(OneLine(), cap, seen.(log := SAID, pending := {1}), held, Publish(1));
    assert [] + [SAID[1]] == [SAID[1]];
    Next(OneLine(), cap, seen.(log := SAID, queue := [SAID[1]]), held, Deliver);
    assert [SAID[1]][1..] == [];
  }

  lemma NobodyStored(s: Sys)
    requires s.log == SAID
    ensures Can(OneLine(), s, Persist(TAKEN_BACK[2]))
  {
    UnassignedTruth();
    assert ("s", LINE.core) in Truth(SAID).segments;
  }

  function Banners(n: nat): (r: seq<Event>)
    ensures |r| == n
  {
    seq(n, _ => Banner)
  }

  lemma BannersMore(n: nat)
    ensures Banners(n) + [Banner] == Banners(n + 1) && Banners(n + 1)[0] == Banner && Banners(n + 1)[1..] == Banners(n)
  {
  }

  /** Status messages fill the queue. */
  lemma {:induction false} QueueFills(cap: nat, n: nat)
    requires 0 < cap && n <= cap
    ensures Reached(OneLine(), cap, Sys(SAID, {}, true, Banners(n), {}, 0, TWO), true)
  {
    hide Reached;
    if n == 0 {
      SpeakerShown(cap, true);
      assert Banners(0) == [];
    } else {
      QueueFills(cap, n - 1);
      BannersMore(n - 1);
      Next(OneLine(), cap, Sys(SAID, {}, true, Banners(n - 1), {}, 0, TWO), true, Relay(Banner));
    }
  }

  /** So the update is dropped, and then the queue drains. */
  lemma {:induction false} QueueDrains(cap: nat, n: nat)
    requires 0 < cap && n <= cap
    ensures Reached(OneLine(), cap, Sys(TAKEN_BACK, {}, true, Banners(n), {}, 3, TWO), true)
    decreases cap - n
  {
    hide Reached;
    if n == cap {
      var full := Sys(SAID, {}, true, Banners(cap), {}, 0, TWO);
      QueueFills(cap, cap);
      NobodyStored(full);
      Next(OneLine(), cap, full, true, Persist(TAKEN_BACK[2]));
      assert {} + {2} == {2} && {2} - {2} == {};
      Next(OneLine(), cap, full.(log := TAKEN_BACK, pending := {2}), true, Publish(2));
    } else {
      QueueDrains(cap, n + 1);
      BannersMore(n);
      Next(OneLine(), cap, Sys(TAKEN_BACK, {}, true, Banners(n + 1), {}, 3, TWO), true, Deliver);
    }
  }

  /** Or it is published while the viewer has no connection. */
  lemma UpdateMissed(cap: nat)
    ensures Reached(OneLine(), cap, Sys(TAKEN_BACK, {}, true, [], {}, 3, TWO), false)
  {
    hide Reached;
    var heard := Sys(SAID, {}, true, [], {}, 0, TWO);
    SpeakerShown(cap, false);
    NobodyStored(heard);
    Next(OneLine(), cap, heard, false, Persist(TAKEN_BACK[2]));
    assert {} + {2} == {2} && {2} - {2} == {};
    Next(OneLine(), cap, heard.(log := TAKEN_BACK, pending := {2}), false, Hangup);
    Next(OneLine(), cap, heard.(log := TAKEN_BACK, pending := {2}, subscribed := false), false, Publish(2));
    Next(OneLine(), cap, heard.(log := TAKEN_BACK, subscribed := false), false, Subscribe);
  }

  lemma RowsAnswer(s: Sys)
    requires s.log == TAKEN_BACK
    ensures Can(OneLine(), s, Read(ROWS))
  {
    UnassignedSnapshot(TAKEN_BACK);
  }

  lemma StillNamed()
    ensures Reduce(TWO, Snapshot(ROWS)).assignments == TWO.assignments
  {
    SnapshotFields(TWO, ROWS);
    assert SnapshotAssignments(ROWS.segments) == [];
  }

  lemma Answered(cap: nat, held: bool)
    requires held ==> cap > 0
    ensures Reached(OneLine(), cap, Sys(TAKEN_BACK, {}, true, [], {(3, ROWS)}, 3, TWO), held)
  {
    hide Reached;
    var dropped := Sys(TAKEN_BACK, {}, true, [], {}, 3, TWO);
    if held {
      QueueDrains(cap, 0);
      assert Banners(0) == [];
    } else {
      UpdateMissed(cap);
    }
    RowsAnswer(dropped);
    Next(OneLine(), cap, dropped, held, Read(ROWS));
    assert {} + {(3, ROWS)} == {(3, ROWS)};
  }

  lemma VoicesDiffer(end: Sys)
    requires end.log == TAKEN_BACK && end.viewer == Reduce(TWO, Snapshot(ROWS))
    ensures Voice(Truth(end.log).who, "s") == None && Voice(end.viewer.assignments, "s") == Some("A")
  {
    StillNamed();
    UnassignedTruth();
    assert TAKEN_BACK == [SegmentMsg(LINE), SpeakerUpdate([], [HEARD]), SpeakerUpdate([], [NOBODY])];
  }

  /** A stored update that takes a speaker off a line (the final pass sends those) and is missed does
      not come back with the next poll: the screen goes on naming the old speaker although the viewer
      is connected, the queue has drained and the snapshot was complete. It can be missed over every
      bounded queue although the connection held all along, and over any queue when it did not. */
  lemma DroppedUnassignmentStays(cap: nat, held: bool) returns (end: Sys)
    requires held ==> cap > 0
    ensures Reached(OneLine(), cap, end, held)
    ensures end.subscribed && end.pending == {} && end.queue == [] && end.need == 0
    ensures Voice(Truth(end.log).who, "s") == None && Voice(end.viewer.assignments, "s") == Some("A")
  {
    hide Reached;
    var answered := Sys(TAKEN_BACK, {}, true, [], {(3, ROWS)}, 3, TWO);
    Answered(cap, held);
    Next(OneLine(), cap, answered, held, Show(3, ROWS));
    end := Apply(cap, answered, Show(3, ROWS));
    assert end == Sys(TAKEN_BACK, {}, true, [], {(3, ROWS)} - {(3, ROWS)}, 0, Reduce(TWO, Snapshot(ROWS)));
    VoicesDiffer(end);
  }
}
