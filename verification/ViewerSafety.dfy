/** What every interleaving of the viewer protocol guarantees. */
module ViewerSafety {
  import opened Reducer
  import opened ReducerInvariant
  import opened Convergence
  import opened Viewer

  /** Nothing on screen that was never stored (the stream clock may run ahead with drafts). */
  ghost predicate NoMore(v: View, t: View) { Leq(v.(streamMs := 0), t.(streamMs := 0)) }

  /** Some stored assignment at `rev` or above names nobody. */
  ghost predicate Blank(log: seq<Event>, id: string, rev: int) {
    exists k :: 0 <= k < |log| && Blanks(log[k], id, rev)
  }

  predicate Blanks(e: Event, id: string, rev: int) {
    var who := Contribution(e).who;
    id in who && who[id].rev >= rev && !Named(who[id])
  }

  /** What `e` says has reached the view: its assignments too, unless blanked since. */
  ghost predicate Covered(log: seq<Event>, v: View, e: Event) {
    var c := Contribution(e);
    && Leq(c.(who := map[]), v)
    && forall id :: id in c.who ==>
      (id in v.who && c.who[id].rev <= v.who[id].rev) || Blank(log, id, c.who[id].rev)
  }

  ghost predicate QueueOk(s: Sys) {
    forall e :: e in s.queue ==> e in s.log || e.DraftMsg? || e.Banner?
  }

  ghost predicate InflightOk(w: World, s: Sys) {
    forall x :: x in s.inflight ==>
      x.0 <= |s.log| && LogOk(w, s.log[..x.0]) && SnapshotOf(x.1, s.log[..x.0]) &&
      x.1.copilot.findings == w.findings(x.1.copilot.version)
  }

  ghost predicate ScreenOk(w: World, s: Sys) {
    Inv(s.viewer) && Genuine(w, ViewOf(s.viewer)) && NoMore(ViewOf(s.viewer), Truth(s.log))
  }

  /** While subscribed, every record is on screen, or on its way through the bus, or below `need`. */
  ghost predicate NothingLost(s: Sys) {
    s.subscribed ==> forall i: nat :: s.need <= i < |s.log| && i !in s.pending && s.log[i] !in s.queue ==>
      Covered(s.log, ViewOf(s.viewer), s.log[i])
  }

  ghost predicate SysInv(w: World, s: Sys) {
    && LogOk(w, s.log) && (forall i :: i in s.pending ==> i < |s.log|) && s.need <= |s.log|
    && QueueOk(s) && InflightOk(w, s) && ScreenOk(w, s) && NothingLost(s)
  }

  // ---- each kind of step -----------------------------------------------------------------

  lemma CoveredGrows(log: seq<Event>, more: seq<Event>, v: View, u: View, e: Event)
    requires log <= more && Leq(v, u) && Covered(log, v, e)
    ensures Covered(more, u, e)
  {
    var c := Contribution(e);
    LeqTransitive(c.(who := map[]), v, u);
    forall id | id in c.who && Blank(log, id, c.who[id].rev) ensures Blank(more, id, c.who[id].rev) {
      var k :| 0 <= k < |log| && Blanks(log[k], id, c.who[id].rev);
      assert Blanks(more[k], id, c.who[id].rev);
    }
  }

  lemma CoveredByJoin(log: seq<Event>, v: View, e: Event)
    ensures Covered(log, Join(v, Contribution(e)), e)
  {
    JoinIsLeast(v, Contribution(e), v);
  }

  lemma {:induction false} AssignedIds(msgs: seq<AssignMsg>, id: string)
    requires id in AssignAll(map[], msgs)
    ensures exists a :: a in msgs && a.segmentId == id
  {
    var init, last := msgs[..|msgs| - 1], msgs[|msgs| - 1];
    assert msgs == init + [last];
    if id in AssignAll(map[], init) {
      AssignedIds(init, id);
      var a :| a in init && a.segmentId == id;
      assert a in msgs;
    } else {
      assert last in msgs;
    }
  }

  lemma PersistLog(w: World, s: Sys, e: Event)
    requires LogOk(w, s.log) && Can(w, s, Persist(e))
    ensures LogOk(w, s.log + [e])
  {
    var t, u := Truth(s.log), Truth(s.log + [e]);
    TruthStep(s.log, e);
    forall id | id in u.who ensures HasTag(u.segments, id) {
      if id in t.who {
        assert HasTag(t.segments, id);
      } else {
        AssignedIds(e.assignments, id);
        var a :| a in e.assignments && a.segmentId == id;
        assert HasTag(t.segments, a.segmentId);
      }
      var p :| p in t.segments && p.0 == id;
      assert p in u.segments;
    }
  }

  lemma LongerLog(w: World, s: Sys, t: Sys)
    requires InflightOk(w, s) && s.log <= t.log && t.inflight == s.inflight
    ensures InflightOk(w, t)
  {
    hide LogOk, SnapshotOf;
    forall x | x in t.inflight ensures t.log[..x.0] == s.log[..x.0] && x.0 <= |s.log| {
    }
  }

  lemma PersistLosesNothing(cap: nat, s: Sys, e: Event)
    requires NothingLost(s)
    ensures NothingLost(Apply(cap, s, Persist(e)))
  {
    hide Covered, Leq;
    var t := Apply(cap, s, Persist(e));
    LeqItself(ViewOf(s.viewer));
    forall i: nat | t.subscribed && t.need <= i < |t.log| && i !in t.pending && t.log[i] !in t.queue
      ensures Covered(t.log, ViewOf(t.viewer), t.log[i])
    {
      assert i < |s.log| && t.log[i] == s.log[i];
      CoveredGrows(s.log, t.log, ViewOf(s.viewer), ViewOf(s.viewer), s.log[i]);
    }
  }

  lemma LeqItself(v: View)
    ensures Leq(v, v)
  {
  }

  lemma PersistKeeps(w: World, cap: nat, s: Sys, e: Event)
    requires SysInv(w, s) && Can(w, s, Persist(e))
    ensures SysInv(w, Apply(cap, s, Persist(e)))
  {
    hide Truth, LogOk, InflightOk, NothingLost, Leq, Genuine, Inv, Stored, GenuineEvent, HasTag;
    var t := Apply(cap, s, Persist(e));
    PersistLog(w, s, e);
    TruthStep(s.log, e);
    LongerLog(w, s, t);
    PersistLosesNothing(cap, s, e);
    TruthOnlyGrows(ViewOf(s.viewer), Truth(s.log), Truth(t.log));
  }

  lemma TruthOnlyGrows(v: View, t: View, u: View)
    requires NoMore(v, t) && Leq(t, u)
    ensures NoMore(v, u)
  {
    LeqTransitive(v.(streamMs := 0), t.(streamMs := 0), u.(streamMs := 0));
  }

  lemma PublishKeeps(w: World, cap: nat, s: Sys, i: nat)
    requires SysInv(w, s) && Can(w, s, Publish(i))
    ensures SysInv(w, Apply(cap, s, Publish(i)))
  {
    var t := Apply(cap, s, Publish(i));
    assert forall e :: e in s.queue ==> e in t.queue;
    forall j: nat | t.subscribed && t.need <= j < |t.log| && j !in t.pending && t.log[j] !in t.queue
      ensures Covered(t.log, ViewOf(t.viewer), t.log[j])
    {
      assert Room(cap, s);
      assert s.log[i] in t.queue;
      assert j != i;
    }
  }

  lemma NoMoreJoin(a: View, b: View, t: View)
    requires NoMore(a, t) && NoMore(b, t)
    ensures NoMore(Join(a, b), t) && Leq(a, Join(a, b))
  {
  }

  lemma ScreenJoins(w: World, s: Sys, e: Event)
    requires LogOk(w, s.log) && ScreenOk(w, s) && GenuineEvent(w, e)
    requires NoMore(Contribution(e), Truth(s.log))
    ensures var v := Reduce(s.viewer, e);
      && ScreenOk(w, s.(viewer := v)) && ViewOf(v) == Join(ViewOf(s.viewer), Contribution(e))
      && Leq(ViewOf(s.viewer), ViewOf(v))
  {
    var v := Reduce(s.viewer, e);
    NoMoreJoin(ViewOf(s.viewer), Contribution(e), Truth(s.log));
    assert Inv(v) by {
      StepKeeps(s.viewer, e);
    }
    assert ViewOf(v) == Join(ViewOf(s.viewer), Contribution(e)) && Genuine(w, ViewOf(v)) by {
      StepJoins(w, s.viewer, e);
    }
  }

  /** The next event is a stored one, or one that is never stored: either way it may be shown. */
  lemma DeliveredJoins(w: World, s: Sys)
    requires SysInv(w, s) && s.queue != []
    ensures var v := Reduce(s.viewer, s.queue[0]);
      && ScreenOk(w, s.(viewer := v)) && ViewOf(v) == Join(ViewOf(s.viewer), Contribution(s.queue[0]))
      && Leq(ViewOf(s.viewer), ViewOf(v))
  {
    var e := s.queue[0];
    assert e in s.queue;
    if e in s.log {
      var k :| 0 <= k < |s.log| && s.log[k] == e;
      TruthHas(s.log, k);
    }
    ScreenJoins(w, s, e);
  }

  lemma DeliverLosesNothing(w: World, cap: nat, s: Sys)
    requires SysInv(w, s) && Can(w, s, Deliver)
    ensures NothingLost(Apply(cap, s, Deliver))
  {
    hide ScreenOk, Covered, Leq, Join, Contribution, Reduce, LogOk, InflightOk;
    var t, e := Apply(cap, s, Deliver), s.queue[0];
    DeliveredJoins(w, s);
    assert s.queue == [e] + t.queue;
    forall i: nat | t.need <= i < |t.log| && i !in t.pending && t.log[i] !in t.queue
      ensures Covered(t.log, ViewOf(t.viewer), t.log[i])
    {
      if t.log[i] == e {
        CoveredByJoin(t.log, ViewOf(s.viewer), e);
      } else {
        CoveredGrows(s.log, t.log, ViewOf(s.viewer), ViewOf(t.viewer), t.log[i]);
      }
    }
  }

  lemma DeliverKeeps(w: World, cap: nat, s: Sys)
    requires SysInv(w, s) && Can(w, s, Deliver)
    ensures SysInv(w, Apply(cap, s, Deliver))
    ensures ViewOf(Apply(cap, s, Deliver).viewer) == Join(ViewOf(s.viewer), Contribution(s.queue[0]))
  {
    hide NothingLost, LogOk, Join, Contribution, Leq, Reduce, Genuine, SnapshotOf;
    DeliveredJoins(w, s);
    DeliverLosesNothing(w, cap, s);
  }

  lemma {:induction false} TopAttained(log: seq<Event>, id: string) returns (k: nat)
    requires id in Truth(log).who
    ensures k < |log| && id in Contribution(log[k]).who && Contribution(log[k]).who[id] == Truth(log).who[id]
  {
    var init, last := log[..|log| - 1], log[|log| - 1];
    assert log == init + [last];
    TruthStep(init, last);
    if id in Contribution(last).who && Contribution(last).who[id] == Truth(log).who[id] {
      k := |log| - 1;
    } else {
      k := TopAttained(init, id);
    }
  }

  /** A snapshot read at length `n` covers everything stored before it was read. */
  lemma SnapshotCovers(w: World, log: seq<Event>, n: nat, d: Detail, v: View, i: nat)
    requires i < n <= |log| && LogOk(w, log[..n]) && SnapshotOf(d, log[..n])
    ensures Covered(log, Join(v, Contribution(Snapshot(d))), log[i])
  {
    var c, t, u := Contribution(log[i]), Truth(log[..n]), Join(v, Contribution(Snapshot(d)));
    SnapshotContributes(w, d, log[..n]);
    JoinIsLeast(v, Contribution(Snapshot(d)), v);
    assert log[..n][i] == log[i];
    TruthHas(log[..n], i);
    forall id | id in c.who ensures (id in u.who && c.who[id].rev <= u.who[id].rev) || Blank(log, id, c.who[id].rev) {
      if !Named(t.who[id]) {
        var k := TopAttained(log[..n], id);
        assert log[..n][k] == log[k];
        assert Blanks(log[k], id, c.who[id].rev);
      }
    }
  }

  lemma ShowKeeps(w: World, cap: nat, s: Sys, n: nat, d: Detail)
    requires SysInv(w, s) && Can(w, s, Show(n, d))
    ensures SysInv(w, Apply(cap, s, Show(n, d)))
    ensures ViewOf(Apply(cap, s, Show(n, d)).viewer) == Join(ViewOf(s.viewer), Contribution(Snapshot(d)))
  {
    var t := Apply(cap, s, Show(n, d));
    assert (n, d) in s.inflight && (n, d).0 == n;
    SnapshotGenuine(w, d, s.log[..n]);
    SnapshotContributes(w, d, s.log[..n]);
    TruthGrows(s.log, n);
    ScreenJoins(w, s, Snapshot(d));
    forall i: nat | t.subscribed && t.need <= i < |t.log| && i !in t.pending && t.log[i] !in t.queue
      ensures Covered(t.log, ViewOf(t.viewer), t.log[i])
    {
      if i < s.need {
        SnapshotCovers(w, s.log, n, d, ViewOf(s.viewer), i);
      } else {
        CoveredGrows(s.log, t.log, ViewOf(s.viewer), ViewOf(t.viewer), t.log[i]);
      }
    }
  }

  lemma StepInv(w: World, cap: nat, s: Sys, l: Label)
    requires SysInv(w, s) && Can(w, s, l)
    ensures SysInv(w, Apply(cap, s, l))
  {
    match l
    case Persist(e) => PersistKeeps(w, cap, s, e);
    case Publish(i) => PublishKeeps(w, cap, s, i);
    case Relay(e) => assert forall x :: x in s.queue ==> x in Apply(cap, s, l).queue;
    case Subscribe =>
    case Hangup =>
    case Deliver => DeliverKeeps(w, cap, s);
    case Read(d) => assert s.log[..|s.log|] == s.log;
    case Show(n, d) => ShowKeeps(w, cap, s, n, d);
    case Lose(n, d) =>
  }

  /** Every interleaving keeps the invariant. */
  lemma {:induction false} RunInv(w: World, cap: nat, s: Sys, labels: seq<Label>)
    requires SysInv(w, s) && Legal(w, cap, s, labels)
    ensures SysInv(w, Run(cap, s, labels))
    decreases |labels|
  {
    if labels == [] {
    } else {
      StepInv(w, cap, s, labels[0]);
      RunInv(w, cap, Apply(cap, s, labels[0]), labels[1..]);
    }
  }

  /** Some run of the protocol ends in `s`, over a queue bounded by `cap`; with `held`, one that never
      hangs up. */
  ghost predicate Reached(w: World, cap: nat, s: Sys, held: bool) {
    exists u :: Legal(w, cap, START, u) && Run(cap, START, u) == s && (held ==> Hangup !in u)
  }

  /** Every reachable state satisfies it. */
  lemma ReachedInv(w: World, cap: nat, s: Sys)
    requires Reached(w, cap, s, false)
    ensures SysInv(w, s)
  {
    var u :| Legal(w, cap, START, u) && Run(cap, START, u) == s;
    StartInv(w);
    RunInv(w, cap, START, u);
  }

  lemma StartInv(w: World)
    ensures SysInv(w, START)
  {
    assert ViewOf(INITIAL) == BOTTOM;
  }
}
