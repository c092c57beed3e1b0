/** When the SLO monitor speaks: one push per breach, and never an effect beside its cause. */
module SloAlerts {
  import opened Options
  import opened Slo
  import opened SloRuns

  // ---- the log tells the whole state -----------------------------------------------------

  /** The breach state of one SLO and key after the first `n` judgements. */
  function BreachAt(clear: int, log: seq<Entry>, n: nat, id: Id): Breach
    requires n <= |log|
  {
    if n == 0 then QUIET
    else
      var before := BreachAt(clear, log, n - 1, id);
      if log[n - 1].id == id then NextBreach(before, log[n - 1].bad, log[n - 1].at, clear) else before
  }

  ghost predicate CauseBreached(clear: int, log: seq<Entry>, n: nat, cause: Option<string>)
    requires n <= |log|
  {
    cause.Some? && exists key :: BreachAt(clear, log, n, Id(cause.value, key)).breached
  }

  /** Judgement `n` sent a push exactly if it turned a healthy SLO bad and no cause was breached. */
  ghost predicate Honest(clear: int, log: seq<Entry>, n: nat)
    requires n < |log|
  {
    log[n].alerted <==>
      log[n].bad && !BreachAt(clear, log, n, log[n].id).breached && !CauseBreached(clear, log, n, log[n].cause)
  }

  ghost predicate AllHonest(clear: int, log: seq<Entry>) { forall n :: 0 <= n < |log| ==> Honest(clear, log, n) }

  function SentOf(log: seq<Entry>): seq<Alert> {
    if log == [] then []
    else
      var e := log[|log| - 1];
      SentOf(log[..|log| - 1]) + if e.alerted then [Alert(e.id.name, e.id.key, e.at)] else []
  }

  ghost predicate LogOk(c: Settings, m: Monitor) {
    && (forall id :: StateOf(m.states, id) == BreachAt(c.clear, m.log, |m.log|, id))
    && AllHonest(c.clear, m.log) && m.sent == SentOf(m.log)
  }

  lemma {:induction false} BreachPrefix(clear: int, log: seq<Entry>, more: seq<Entry>, n: nat, id: Id)
    requires n <= |log|
    ensures BreachAt(clear, log + more, n, id) == BreachAt(clear, log, n, id)
  {
    if n == 0 {
    } else {
      BreachPrefix(clear, log, more, n - 1, id);
    }
  }

  lemma HonestPrefix(clear: int, log: seq<Entry>, e: Entry, n: nat)
    requires n < |log| && Honest(clear, log, n)
    ensures Honest(clear, log + [e], n)
  {
    hide BreachAt;
    forall id ensures BreachAt(clear, log + [e], n, id) == BreachAt(clear, log, n, id) {
      BreachPrefix(clear, log, [e], n, id);
    }
    assert (log + [e])[n] == log[n];
  }

  lemma JudgedStates(c: Settings, m: Monitor, spec: Spec, key: string, now: int)
    ensures var r := Judged(c, m, spec, key, now);
      && |r.log| == |m.log| + 1 && r.log == m.log + [r.log[|m.log|]]
      && var e := r.log[|m.log|];
      && e.id == Id(spec.slo, key) && e.cause == spec.defersTo
      && r.sent == (if e.alerted then m.sent + [Alert(spec.slo, key, e.at)] else m.sent)
      && (forall id :: StateOf(r.states, id) ==
           if id == e.id then NextBreach(StateOf(m.states, id), e.bad, e.at, c.clear) else StateOf(m.states, id))
      && (e.alerted <==> e.bad && !StateOf(m.states, e.id).breached && !Explained(r.states, spec.defersTo))
  {
    hide Verdict, NextBreach, Explained;
  }

  /** Whether a cause is breached does not depend on the effect's own new state. */
  lemma ExplainedByOthers(states: map<Id, Breach>, cause: string)
    ensures Explained(states, Some(cause)) <==> exists key :: StateOf(states, Id(cause, key)).breached
  {
    if Explained(states, Some(cause)) {
      var id :| id in states && id.name == cause && states[id].breached;
      assert id == Id(cause, id.key) && StateOf(states, Id(cause, id.key)).breached;
    }
    if key :| StateOf(states, Id(cause, key)).breached {
      assert Id(cause, key) in states;
    }
  }

  lemma JudgedLogOk(c: Settings, m: Monitor, spec: Spec, key: string, now: int)
    requires LogOk(c, m) && spec.defersTo != Some(spec.slo)
    ensures LogOk(c, Judged(c, m, spec, key, now))
  {
    var r, k := Judged(c, m, spec, key, now), |m.log|;
    JudgedStates(c, m, spec, key, now);
    var e := r.log[k];
    hide Judged, NextBreach, Explained, StateOf, Verdict;
    forall id ensures BreachAt(c.clear, r.log, k, id) == StateOf(m.states, id) {
      BreachPrefix(c.clear, m.log, [e], k, id);
    }
    forall id ensures StateOf(r.states, id) == BreachAt(c.clear, r.log, k + 1, id) {
    }
    if spec.defersTo.Some? {
      ExplainedByOthers(r.states, spec.defersTo.value);
      forall x ensures StateOf(r.states, Id(spec.defersTo.value, x)) == BreachAt(c.clear, r.log, k, Id(spec.defersTo.value, x)) {
      }
    } else {
      NoCause(r.states);
    }
    assert Honest(c.clear, r.log, k);
    forall n | 0 <= n < |r.log| ensures Honest(c.clear, r.log, n) {
      if n < k {
        HonestPrefix(c.clear, m.log, e, n);
      }
    }
    assert r.log[..|r.log| - 1] == m.log;
  }

  lemma NoCause(states: map<Id, Breach>)
    ensures !Explained(states, None)
  {
  }

  lemma {:induction false} JudgedAllLogOk(c: Settings, m: Monitor, spec: Spec, order: seq<Id>, now: int)
    requires LogOk(c, m) && spec.defersTo != Some(spec.slo)
    ensures LogOk(c, JudgedAll(c, m, spec, order, now))
  {
    hide LogOk, Judged;
    if order == [] {
    } else {
      JudgedAllLogOk(c, m, spec, order[..|order| - 1], now);
      JudgedLogOk(c, JudgedAll(c, m, spec, order[..|order| - 1], now), spec, order[|order| - 1].key, now);
    }
  }

  /** No spec is judged before one it defers to, or defers to itself. */
  ghost predicate CausesFirst(specs: seq<Spec>) {
    forall j, k :: 0 <= j <= k < |specs| ==> specs[j].defersTo != Some(specs[k].slo)
  }

  lemma SpecsCausesFirst(c: Settings)
    ensures CausesFirst(Specs(c))
  {
  }

  lemma {:induction false} CheckedSpecsLogOk(c: Settings, m: Monitor, specs: seq<Spec>, now: int, anyLive: bool, sttUp: bool)
    requires LogOk(c, m) && CausesFirst(specs)
    ensures LogOk(c, CheckedSpecs(c, m, specs, now, anyLive, sttUp))
  {
    hide LogOk, JudgedAll;
    if specs == [] {
    } else {
      var init, spec := specs[..|specs| - 1], specs[|specs| - 1];
      CheckedSpecsLogOk(c, m, init, now, anyLive, sttUp);
      var before := CheckedSpecs(c, m, init, now, anyLive, sttUp);
      if !Skipped(spec, anyLive, sttUp) {
        JudgedAllLogOk(c, before, spec, before.order, now);
      }
    }
  }

  // ---- breached, by what was judged ------------------------------------------------------

  /** From a bad judgement at `b` to one at `r`, at least `clear` later, every one is good. */
  ghost predicate HealthyStretch(clear: int, log: seq<Entry>, id: Id, b: nat, r: nat) {
    && b < r < |log| && log[b].id == id && log[b].bad && log[r].id == id
    && log[r].at - log[b].at >= clear
    && forall x :: b < x <= r && log[x].id == id ==> !log[x].bad
  }

  /** `b` is the last bad judgement of `id` among the first `n`. */
  ghost predicate LastBad(log: seq<Entry>, id: Id, n: nat, b: nat)
    requires n <= |log|
  {
    b < n && log[b].id == id && log[b].bad && forall x :: b < x < n && log[x].id == id ==> !log[x].bad
  }

  ghost predicate Cleared(clear: int, log: seq<Entry>, id: Id, n: nat, b: nat) {
    exists r: nat :: r < n && HealthyStretch(clear, log, id, b, r)
  }

  /** It was judged bad, and has not been healthy for the clear time since. */
  ghost predicate Breached(clear: int, log: seq<Entry>, id: Id, n: nat)
    requires n <= |log|
  {
    exists b: nat :: LastBad(log, id, n, b) && !Cleared(clear, log, id, n, b)
  }

  /** What the monitor remembers of an SLO: its last bad judgement, and whether it is cleared. */
  ghost predicate Remembered(clear: int, log: seq<Entry>, id: Id, n: nat, b: int)
    requires n <= |log|
  {
    var st := BreachAt(clear, log, n, id);
    if b < 0 then st == QUIET && forall x :: 0 <= x < n && log[x].id == id ==> !log[x].bad
    else LastBad(log, id, n, b) && st.lastBad == Some(log[b].at) && (st.breached <==> !Cleared(clear, log, id, n, b))
  }

  lemma {:induction false} Remembers(clear: int, log: seq<Entry>, id: Id, n: nat) returns (b: int)
    requires n <= |log|
    ensures Remembered(clear, log, id, n, b)
  {
    if n == 0 {
      b := -1;
    } else {
      b := Remembers(clear, log, id, n - 1);
      var e := log[n - 1];
      if e.id == id && e.bad {
        b := n - 1;
      } else if b >= 0 {
        ClearedStep(clear, log, id, n, b);
      }
    }
  }

  /** One more judgement clears it exactly if it is its own, is good, and comes late enough. */
  lemma ClearedStep(clear: int, log: seq<Entry>, id: Id, n: nat, b: nat)
    requires 0 < n <= |log| && LastBad(log, id, n, b)
    ensures Cleared(clear, log, id, n, b) <==>
      Cleared(clear, log, id, n - 1, b) || (b < n - 1 && log[n - 1].id == id && log[n - 1].at - log[b].at >= clear)
  {
    if b < n - 1 && log[n - 1].id == id && log[n - 1].at - log[b].at >= clear {
      assert HealthyStretch(clear, log, id, b, n - 1);
    }
  }

  lemma BreachedMeans(clear: int, log: seq<Entry>, id: Id, n: nat)
    requires n <= |log|
    ensures BreachAt(clear, log, n, id).breached <==> Breached(clear, log, id, n)
  {
    var b := Remembers(clear, log, id, n);
    hide BreachAt, Cleared;
    if c: nat :| LastBad(log, id, n, c) && !Cleared(clear, log, id, n, c) {
      assert b == c;
    }
    if b >= 0 && BreachAt(clear, log, n, id).breached {
      assert LastBad(log, id, n, b) && !Cleared(clear, log, id, n, b);
    }
  }

  /** Judgement `n` was pushed exactly if it was bad while neither its SLO nor, for any key, one that
      SLO defers to was breached. */
  ghost predicate PushedRightly(clear: int, log: seq<Entry>, n: nat)
    requires n < |log|
  {
    log[n].alerted <==>
      && log[n].bad && !Breached(clear, log, log[n].id, n)
      && !(log[n].cause.Some? && exists key :: Breached(clear, log, Id(log[n].cause.value, key), n))
  }

  lemma HonestIsRight(clear: int, log: seq<Entry>, n: nat)
    requires n < |log| && Honest(clear, log, n)
    ensures PushedRightly(clear, log, n)
  {
    hide BreachAt, Breached;
    BreachedMeans(clear, log, log[n].id, n);
    if log[n].cause.Some? {
      forall key ensures BreachAt(clear, log, n, Id(log[n].cause.value, key)).breached <==>
          Breached(clear, log, Id(log[n].cause.value, key), n) {
        BreachedMeans(clear, log, Id(log[n].cause.value, key), n);
      }
    }
  }

  /** Over every run a push goes out exactly at a judgement that turns a healthy SLO bad while no
      SLO it defers to is breached; nothing else is ever sent. An effect that turned bad beside its
      cause is not pushed later either, unless it clears first. */
  lemma PushExactlyAtOnset(c: Settings, es: seq<Event>, n: nat)
    requires n <= |es|
    ensures var m := After(c, es, n);
      m.sent == SentOf(m.log) && forall x :: 0 <= x < |m.log| ==> PushedRightly(c.clear, m.log, x)
  {
    RunLogOk(c, es, n);
    hide After, Honest, PushedRightly;
    var m := After(c, es, n);
    forall x | 0 <= x < |m.log| ensures PushedRightly(c.clear, m.log, x) {
      HonestIsRight(c.clear, m.log, x);
    }
  }

  lemma {:induction false} RunLogOk(c: Settings, es: seq<Event>, n: nat)
    requires n <= |es|
    ensures LogOk(c, After(c, es, n))
  {
    if n == 0 {
      assert FRESH.log == [];
    } else {
      RunLogOk(c, es, n - 1);
      hide LogOk;
      var m := After(c, es, n - 1);
      if es[n - 1].Check? {
        SpecsCausesFirst(c);
        CheckedSpecsLogOk(c, m, Specs(c), es[n - 1].at, es[n - 1].anyLive, es[n - 1].sttUp);
      } else {
        SameLogOk(c, m, After(c, es, n));
      }
    }
  }

  lemma SameLogOk(c: Settings, m: Monitor, r: Monitor)
    requires LogOk(c, m) && r.log == m.log && r.states == m.states && r.sent == m.sent
    ensures LogOk(c, r)
  {
  }

  // ---- between two pushes ----------------------------------------------------------------

  ghost predicate StillBreached(clear: int, log: seq<Entry>, id: Id, b: nat, n: nat) {
    && b < n <= |log| && log[b].id == id && log[b].bad
    && BreachAt(clear, log, n, id) == Breach(true, Some(log[b].at))
    && forall x :: b < x < n && log[x].id == id ==> !log[x].bad
  }

  lemma {:induction false} SinceOnset(clear: int, log: seq<Entry>, id: Id, i: nat, n: nat) returns (b: nat, r: nat)
    requires i < n <= |log| && log[i].id == id && log[i].bad
    ensures i <= b && ((r < n && HealthyStretch(clear, log, id, b, r)) || StillBreached(clear, log, id, b, n))
    decreases n
  {
    if n == i + 1 {
      b, r := i, i;
    } else {
      b, r := SinceOnset(clear, log, id, i, n - 1);
      if !(r < n - 1 && HealthyStretch(clear, log, id, b, r)) && log[n - 1].id == id {
        b, r := if log[n - 1].bad then n - 1 else b, n - 1;
      }
    }
  }

  /** Between two pushes for one SLO and key lies a stretch of at least the clear time in which
      every judgement of it was good. */
  lemma PushesApart(clear: int, log: seq<Entry>, i: nat, j: nat) returns (b: nat, r: nat)
    requires AllHonest(clear, log) && i < j < |log|
    requires log[i].alerted && log[j].alerted && log[i].id == log[j].id
    ensures i <= b < r < j && HealthyStretch(clear, log, log[i].id, b, r)
  {
    assert Honest(clear, log, i) && Honest(clear, log, j);
    b, r := SinceOnset(clear, log, log[i].id, i, j);
  }

  /** So over every run. */
  lemma RunPushesApart(c: Settings, es: seq<Event>, n: nat, i: nat, j: nat) returns (b: nat, r: nat)
    requires n <= |es| && i < j < |After(c, es, n).log|
    requires var log := After(c, es, n).log; log[i].alerted && log[j].alerted && log[i].id == log[j].id
    ensures var log := After(c, es, n).log; i <= b < r < j && HealthyStretch(c.clear, log, log[i].id, b, r)
  {
    RunLogOk(c, es, n);
    b, r := PushesApart(c.clear, After(c, es, n).log, i, j);
  }

  // ---- an effect never repeats its cause -------------------------------------------------

  /** No push among the entries from `from` on is for an effect whose cause is breached now. */
  ghost predicate NoEcho(m: Monitor, from: nat) {
    forall x, key :: from <= x < |m.log| && m.log[x].alerted && m.log[x].cause.Some? ==>
      !StateOf(m.states, Id(m.log[x].cause.value, key)).breached
  }

  /** The entries from `from` on come from specs that do not defer to `slo`. */
  ghost predicate NotCausedBy(m: Monitor, from: nat, slo: string) {
    forall x :: from <= x < |m.log| ==> m.log[x].cause != Some(slo)
  }

  lemma JudgedNoEcho(c: Settings, m: Monitor, spec: Spec, key: string, now: int, from: nat)
    requires from <= |m.log| && NoEcho(m, from) && NotCausedBy(m, from, spec.slo) && spec.defersTo != Some(spec.slo)
    ensures var r := Judged(c, m, spec, key, now);
      NoEcho(r, from) && NotCausedBy(r, from, spec.slo) && |r.log| > |m.log|
  {
    var r, k := Judged(c, m, spec, key, now), |m.log|;
    JudgedStates(c, m, spec, key, now);
    hide Judged, Explained, NextBreach, StateOf;
    if spec.defersTo.Some? {
      ExplainedByOthers(r.states, spec.defersTo.value);
    }
    forall x, y | from <= x < |r.log| && r.log[x].alerted && r.log[x].cause.Some?
      ensures !StateOf(r.states, Id(r.log[x].cause.value, y)).breached
    {
      assert x < k ==> r.log[x] == m.log[x];
    }
  }

  lemma {:induction false} JudgedAllNoEcho(c: Settings, m: Monitor, spec: Spec, order: seq<Id>, now: int, from: nat)
    requires from <= |m.log| && NoEcho(m, from) && NotCausedBy(m, from, spec.slo) && spec.defersTo != Some(spec.slo)
    ensures var r := JudgedAll(c, m, spec, order, now);
      && NoEcho(r, from) && NotCausedBy(r, from, spec.slo) && |r.log| >= |m.log| && r.log[..|m.log|] == m.log
      && forall x :: |m.log| <= x < |r.log| ==> r.log[x].cause == spec.defersTo
  {
    hide NoEcho, Judged;
    if order == [] {
    } else {
      var before, id := JudgedAll(c, m, spec, order[..|order| - 1], now), order[|order| - 1];
      JudgedAllNoEcho(c, m, spec, order[..|order| - 1], now, from);
      JudgedNoEcho(c, before, spec, id.key, now, from);
      JudgedStates(c, before, spec, id.key, now);
    }
  }

  lemma {:induction false} CheckedSpecsNoEcho(c: Settings, m: Monitor, specs: seq<Spec>, k: nat, now: int,
      anyLive: bool, sttUp: bool)
    requires CausesFirst(specs) && k <= |specs|
    ensures var r := CheckedSpecs(c, m, specs[..k], now, anyLive, sttUp);
      && NoEcho(r, |m.log|) && |m.log| <= |r.log|
      && forall j :: k <= j < |specs| ==> NotCausedBy(r, |m.log|, specs[j].slo)
  {
    if k == 0 {
    } else {
      hide NoEcho, JudgedAll;
      assert specs[..k][..k - 1] == specs[..k - 1];
      CheckedSpecsNoEcho(c, m, specs, k - 1, now, anyLive, sttUp);
      var before, spec := CheckedSpecs(c, m, specs[..k - 1], now, anyLive, sttUp), specs[k - 1];
      if !Skipped(spec, anyLive, sttUp) {
        JudgedAllNoEcho(c, before, spec, before.order, now, |m.log|);
        var r := JudgedAll(c, before, spec, before.order, now);
        forall j | k <= j < |specs| ensures NotCausedBy(r, |m.log|, specs[j].slo) {
          forall x | |m.log| <= x < |r.log| ensures r.log[x].cause != Some(specs[j].slo) {
            assert x < |before.log| ==> r.log[x] == r.log[..|before.log|][x];
          }
        }
      }
    }
  }

  /** The SLO that explains another: a slow tier the lines of a transcript, a slow round trip stale
      notes. */
  function CauseOf(slo: string): Option<string> {
    if slo == "authoritative" then Some("stt_tier")
    else if slo == "copilot_staleness" then Some("copilot_roundtrip")
    else None
  }

  ghost predicate CausesNamed(log: seq<Entry>) { forall x :: 0 <= x < |log| ==> log[x].cause == CauseOf(log[x].id.name) }

  lemma {:induction false} JudgedAllNamed(c: Settings, m: Monitor, spec: Spec, order: seq<Id>, now: int)
    requires CausesNamed(m.log) && spec.defersTo == CauseOf(spec.slo)
    ensures CausesNamed(JudgedAll(c, m, spec, order, now).log)
  {
    hide Judged, CauseOf;
    if order == [] {
    } else {
      var before, id := JudgedAll(c, m, spec, order[..|order| - 1], now), order[|order| - 1];
      JudgedAllNamed(c, m, spec, order[..|order| - 1], now);
      JudgedStates(c, before, spec, id.key, now);
    }
  }

  lemma {:induction false} CheckedSpecsNamed(c: Settings, m: Monitor, specs: seq<Spec>, now: int, anyLive: bool, sttUp: bool)
    requires CausesNamed(m.log) && forall k :: 0 <= k < |specs| ==> specs[k].defersTo == CauseOf(specs[k].slo)
    ensures CausesNamed(CheckedSpecs(c, m, specs, now, anyLive, sttUp).log)
  {
    hide CausesNamed, JudgedAll, CauseOf;
    if specs == [] {
    } else {
      var init, spec := specs[..|specs| - 1], specs[|specs| - 1];
      CheckedSpecsNamed(c, m, init, now, anyLive, sttUp);
      var before := CheckedSpecs(c, m, init, now, anyLive, sttUp);
      JudgedAllNamed(c, before, spec, before.order, now);
    }
  }

  lemma {:induction false} RunNamed(c: Settings, es: seq<Event>, n: nat)
    requires n <= |es|
    ensures CausesNamed(After(c, es, n).log)
  {
    if n == 0 {
      assert FRESH.log == [];
    } else {
      RunNamed(c, es, n - 1);
      hide CausesNamed;
      if es[n - 1].Check? {
        CheckedSpecsNamed(c, After(c, es, n - 1), Specs(c), es[n - 1].at, es[n - 1].anyLive, es[n - 1].sttUp);
      }
    }
  }

  /** No check pushes an effect while, at its end, the SLO that explains it is breached for any key:
      causes are judged before their effects. */
  lemma EffectsDefer(c: Settings, es: seq<Event>, n: nat, x: nat, key: string)
    requires n < |es| && es[n].Check?
    requires |After(c, es, n).log| <= x < |After(c, es, n + 1).log|
    ensures var log := After(c, es, n + 1).log;
      log[x].alerted && CauseOf(log[x].id.name).Some? ==> !Breached(c.clear, log, Id(CauseOf(log[x].id.name).value, key), |log|)
  {
    var specs := Specs(c);
    SpecsCausesFirst(c);
    assert specs[..|specs|] == specs;
    CheckedSpecsNoEcho(c, After(c, es, n), specs, |specs|, es[n].at, es[n].anyLive, es[n].sttUp);
    RunLogOk(c, es, n + 1);
    RunNamed(c, es, n + 1);
    hide CheckedSpecs, Specs, CauseOf, BreachAt, Breached, StateOf;
    var m := After(c, es, n + 1);
    if m.log[x].cause.Some? {
      BreachedMeans(c.clear, m.log, Id(m.log[x].cause.value, key), |m.log|);
    }
  }
}
