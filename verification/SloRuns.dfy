/** What the SLO monitor promises over whole runs. */
module SloRuns {
  import opened SloWindow
  import opened Slo

  datatype Event = Observe(id: Id, value: int, at: int) | Check(at: int, anyLive: bool, sttUp: bool)

  function Step(c: Settings, m: Monitor, e: Event): Monitor {
    match e
    case Observe(id, value, at) => Observed(c, m, id, Sample(at, value))
    case Check(at, anyLive, sttUp) => Checked(c, m, at, anyLive, sttUp)
  }

  function After(c: Settings, es: seq<Event>, n: nat): Monitor
    requires n <= |es|
  {
    if n == 0 then FRESH else Step(c, After(c, es, n - 1), es[n - 1])
  }

  /** The clock is monotonic. */
  ghost predicate Timely(es: seq<Event>) { forall i, j :: 0 <= i < j < |es| ==> es[i].at <= es[j].at }

  // ---- the deque refines the full history ------------------------------------------------

  /** Everything ever observed for one window. */
  function Hist(es: seq<Event>, n: nat, id: Id): seq<Sample>
    requires n <= |es|
  {
    if n == 0 then []
    else Hist(es, n - 1, id) + if es[n - 1].Observe? && es[n - 1].id == id then [Sample(es[n - 1].at, es[n - 1].value)] else []
  }

  lemma {:induction false} HistInOrder(es: seq<Event>, n: nat, id: Id)
    requires Timely(es) && n <= |es|
    ensures InOrder(Hist(es, n, id))
    ensures n > 0 ==> forall x :: x in Hist(es, n, id) ==> x.at <= es[n - 1].at
    ensures n == 0 ==> Hist(es, n, id) == []
  {
    if n == 0 {
    } else {
      HistInOrder(es, n - 1, id);
      assert n > 1 ==> es[n - 2].at <= es[n - 1].at;
    }
  }

  /** How far back a signal is judged: no signal feeds two SLOs. */
  function SpanOf(c: Settings, signal: string): int {
    if signal == "finalize" then 6 * 3600 * 1000 else c.window
  }

  predicate OwnSpan(c: Settings, spec: Spec) { spec.window == SpanOf(c, spec.signal) }

  /** Each deque holds what its history leaves in it, up to samples too old to be judged again. */
  ghost predicate AllKept(c: Settings, m: Monitor, h: Id -> seq<Sample>, now: int) {
    forall id :: Kept(h(id), WindowOf(m, id), now - SpanOf(c, id.name))
  }

  /** The verdict on the full history: the observations within the span, among the last 4096. */
  function HistoryVerdict(spec: Spec, h: seq<Sample>, now: int): bool {
    Bad(spec, Values(Recent(Last(h), now - spec.window)))
  }

  /** The verdicts a check should come to, in its order. */
  function Expected(spec: Spec, order: seq<Id>, h: Id -> seq<Sample>, now: int): seq<(Id, bool)> {
    if order == [] then []
    else
      var id := order[|order| - 1];
      Expected(spec, order[..|order| - 1], h, now) +
        if id.name == spec.signal then [(Id(spec.slo, id.key), HistoryVerdict(spec, h(Id(spec.signal, id.key)), now))] else []
  }

  function ExpectedAll(specs: seq<Spec>, order: seq<Id>, h: Id -> seq<Sample>, now: int, anyLive: bool, sttUp: bool):
    seq<(Id, bool)>
  {
    if specs == [] then []
    else
      var spec := specs[|specs| - 1];
      ExpectedAll(specs[..|specs| - 1], order, h, now, anyLive, sttUp) +
        if Skipped(spec, anyLive, sttUp) then [] else Expected(spec, order, h, now)
  }

  function Found(log: seq<Entry>): (r: seq<(Id, bool)>)
    ensures |r| == |log|
  {
    seq(|log|, i requires 0 <= i < |log| => (log[i].id, log[i].bad))
  }

  lemma FoundOne(log: seq<Entry>, e: Entry)
    ensures Found(log + [e]) == Found(log) + [(e.id, e.bad)]
  {
  }

  lemma JudgedRefines(c: Settings, m: Monitor, spec: Spec, key: string, h: Id -> seq<Sample>, now: int)
    requires OwnSpan(c, spec) && AllKept(c, m, h, now) && InOrder(h(Id(spec.signal, key)))
    ensures var r := Judged(c, m, spec, key, now);
      && AllKept(c, r, h, now) && r.order == m.order
      && Found(r.log) == Found(m.log) + [(Id(spec.slo, key), HistoryVerdict(spec, h(Id(spec.signal, key)), now))]
  {
    hide Kept, DropOld, Recent, Last, Bad, Values, Found;
    var source := Id(spec.signal, key);
    assert Kept(h(source), WindowOf(m, source), now - SpanOf(c, source.name));
    LastInOrder(h(source));
    DropKept(h(source), WindowOf(m, source), now - spec.window, now - spec.window);
    var r := Judged(c, m, spec, key, now);
    assert r.log == m.log + [r.log[|m.log|]];
    FoundOne(m.log, r.log[|m.log|]);
    forall id ensures Kept(h(id), WindowOf(r, id), now - SpanOf(c, id.name)) {
      assert Kept(h(id), WindowOf(m, id), now - SpanOf(c, id.name));
    }
  }

  lemma LastInOrder(h: seq<Sample>)
    requires InOrder(h)
    ensures InOrder(Last(h))
  {
  }

  ghost predicate AllInOrder(h: Id -> seq<Sample>) { forall id :: InOrder(h(id)) }

  lemma {:induction false} JudgedAllRefines(c: Settings, m: Monitor, spec: Spec, order: seq<Id>, h: Id -> seq<Sample>, now: int)
    requires OwnSpan(c, spec) && AllKept(c, m, h, now) && AllInOrder(h)
    ensures var r := JudgedAll(c, m, spec, order, now);
      && AllKept(c, r, h, now) && r.order == m.order
      && Found(r.log) == Found(m.log) + Expected(spec, order, h, now)
  {
    hide AllKept, OwnSpan, Judged, Found, HistoryVerdict;
    if order == [] {
    } else {
      var init, id := order[..|order| - 1], order[|order| - 1];
      JudgedAllRefines(c, m, spec, init, h, now);
      if id.name == spec.signal {
        assert InOrder(h(Id(spec.signal, id.key)));
        JudgedRefines(c, JudgedAll(c, m, spec, init, now), spec, id.key, h, now);
      }
    }
  }

  lemma {:induction false} CheckedSpecsRefines(c: Settings, m: Monitor, specs: seq<Spec>, h: Id -> seq<Sample>, now: int,
      anyLive: bool, sttUp: bool)
    requires (forall i :: 0 <= i < |specs| ==> OwnSpan(c, specs[i])) && AllKept(c, m, h, now) && AllInOrder(h)
    ensures var r := CheckedSpecs(c, m, specs, now, anyLive, sttUp);
      && AllKept(c, r, h, now) && r.order == m.order
      && Found(r.log) == Found(m.log) + ExpectedAll(specs, m.order, h, now, anyLive, sttUp)
  {
    hide AllKept, OwnSpan, JudgedAll, Found, Expected, AllInOrder;
    if specs == [] {
    } else {
      var init, spec := specs[..|specs| - 1], specs[|specs| - 1];
      CheckedSpecsRefines(c, m, init, h, now, anyLive, sttUp);
      var before := CheckedSpecs(c, m, init, now, anyLive, sttUp);
      if !Skipped(spec, anyLive, sttUp) {
        JudgedAllRefines(c, before, spec, before.order, h, now);
      }
    }
  }

  lemma LaterKept(c: Settings, m: Monitor, h: Id -> seq<Sample>, before: int, now: int)
    requires AllKept(c, m, h, before) && before <= now
    ensures AllKept(c, m, h, now)
  {
    forall id ensures Kept(h(id), WindowOf(m, id), now - SpanOf(c, id.name)) {
      assert Kept(h(id), WindowOf(m, id), before - SpanOf(c, id.name));
    }
  }

  ghost function HistAt(es: seq<Event>, n: nat): Id -> seq<Sample>
    requires n <= |es|
  {
    id => Hist(es, n, id)
  }

  lemma HistAtInOrder(es: seq<Event>, n: nat)
    requires Timely(es) && n <= |es|
    ensures AllInOrder(HistAt(es, n))
  {
    forall id ensures InOrder(HistAt(es, n)(id)) {
      HistInOrder(es, n, id);
    }
  }

  lemma HistNext(es: seq<Event>, n: nat, id: Id)
    requires n < |es|
    ensures HistAt(es, n + 1)(id) == HistAt(es, n)(id) +
      if es[n].Observe? && es[n].id == id then [Sample(es[n].at, es[n].value)] else []
  {
  }

  lemma ObservedKept(c: Settings, m: Monitor, es: seq<Event>, n: nat)
    requires c.enabled && n < |es| && es[n].Observe? && AllKept(c, m, HistAt(es, n), es[n].at)
    ensures AllKept(c, Step(c, m, es[n]), HistAt(es, n + 1), es[n].at)
  {
    hide Kept, Append, HistAt, Hist;
    var now := es[n].at;
    var r := Step(c, m, es[n]);
    forall id ensures Kept(HistAt(es, n + 1)(id), WindowOf(r, id), now - SpanOf(c, id.name)) {
      var past := HistAt(es, n)(id);
      assert Kept(past, WindowOf(m, id), now - SpanOf(c, id.name));
      AppendKept(past, WindowOf(m, id), now - SpanOf(c, id.name), Sample(now, es[n].value));
      HistNext(es, n, id);
      assert past + [] == past;
    }
  }

  lemma CheckSameHist(c: Settings, m: Monitor, es: seq<Event>, n: nat, now: int)
    requires n < |es| && es[n].Check? && AllKept(c, m, HistAt(es, n), now)
    ensures AllKept(c, m, HistAt(es, n + 1), now)
  {
    hide Kept, HistAt, Hist;
    forall id ensures Kept(HistAt(es, n + 1)(id), WindowOf(m, id), now - SpanOf(c, id.name)) {
      var past := HistAt(es, n)(id);
      assert Kept(past, WindowOf(m, id), now - SpanOf(c, id.name));
      HistNext(es, n, id);
      assert past + [] == past;
    }
  }

  lemma SpecsOwnSpans(c: Settings)
    ensures forall i :: 0 <= i < |Specs(c)| ==> OwnSpan(c, Specs(c)[i])
  {
  }

  lemma FreshKept(c: Settings, es: seq<Event>, now: int)
    ensures AllKept(c, FRESH, HistAt(es, 0), now)
  {
    forall id ensures Kept(HistAt(es, 0)(id), WindowOf(FRESH, id), now - SpanOf(c, id.name)) {
      assert HistAt(es, 0)(id) == [] && WindowOf(FRESH, id) == [];
    }
  }

  lemma {:induction false} RunKept(c: Settings, es: seq<Event>, n: nat, now: int)
    requires c.enabled && Timely(es) && n <= |es| && (n > 0 ==> es[n - 1].at <= now)
    ensures AllKept(c, After(c, es, n), HistAt(es, n), now)
    decreases n
  {
    hide AllKept, HistAt, Hist, CheckedSpecs, Observed;
    if n == 0 {
      FreshKept(c, es, now);
    } else {
      var m, at := After(c, es, n - 1), es[n - 1].at;
      RunKept(c, es, n - 1, at);
      if es[n - 1].Observe? {
        ObservedKept(c, m, es, n - 1);
      } else {
        HistAtInOrder(es, n - 1);
        SpecsOwnSpans(c);
        CheckedSpecsRefines(c, m, Specs(c), HistAt(es, n - 1), at, es[n - 1].anyLive, es[n - 1].sttUp);
        CheckSameHist(c, After(c, es, n), es, n - 1, at);
      }
      LaterKept(c, After(c, es, n), HistAt(es, n), at, now);
    }
  }

  /** The keys with a window are those ever observed, each once. */
  ghost predicate OrderOk(m: Monitor, h: Id -> seq<Sample>) {
    && (forall id :: id in m.order <==> h(id) != [])
    && (forall id :: id in m.order <==> id in m.windows)
    && (forall i, j :: 0 <= i < j < |m.order| ==> m.order[i] != m.order[j])
  }

  lemma {:induction false} JudgedAllKeys(c: Settings, m: Monitor, spec: Spec, order: seq<Id>, now: int)
    requires forall id :: id in order ==> id in m.windows
    ensures var r := JudgedAll(c, m, spec, order, now);
      r.order == m.order && forall id :: id in r.windows <==> id in m.windows
  {
    if order == [] {
    } else {
      JudgedAllKeys(c, m, spec, order[..|order| - 1], now);
      assert order[|order| - 1] in order;
    }
  }

  lemma {:induction false} CheckedSpecsKeys(c: Settings, m: Monitor, specs: seq<Spec>, now: int, anyLive: bool, sttUp: bool)
    requires forall id :: id in m.order ==> id in m.windows
    ensures var r := CheckedSpecs(c, m, specs, now, anyLive, sttUp);
      r.order == m.order && forall id :: id in r.windows <==> id in m.windows
  {
    hide JudgedAll;
    if specs == [] {
    } else {
      var init, spec := specs[..|specs| - 1], specs[|specs| - 1];
      CheckedSpecsKeys(c, m, init, now, anyLive, sttUp);
      var before := CheckedSpecs(c, m, init, now, anyLive, sttUp);
      JudgedAllKeys(c, before, spec, before.order, now);
    }
  }

  lemma ObservedOrderOk(c: Settings, m: Monitor, id: Id, x: Sample, h: Id -> seq<Sample>, more: Id -> seq<Sample>)
    requires c.enabled && OrderOk(m, h) && forall i :: more(i) != [] <==> h(i) != [] || i == id
    ensures OrderOk(Observed(c, m, id, x), more)
  {
    hide Append;
  }

  lemma SameOrderOk(m: Monitor, r: Monitor, h: Id -> seq<Sample>, same: Id -> seq<Sample>)
    requires OrderOk(m, h) && forall i :: same(i) != [] <==> h(i) != []
    requires r.order == m.order && forall id :: id in r.windows <==> id in m.windows
    ensures OrderOk(r, same)
  {
  }

  /** What a check goes through is every key ever observed, once each. */
  lemma {:induction false} OrderIsObserved(c: Settings, es: seq<Event>, n: nat)
    requires c.enabled && n <= |es|
    ensures OrderOk(After(c, es, n), HistAt(es, n))
  {
    if n > 0 {
      hide HistAt, Hist, CheckedSpecs, OrderOk, Observed;
      OrderIsObserved(c, es, n - 1);
      var m := After(c, es, n - 1);
      forall id ensures HistAt(es, n)(id) != [] <==>
        HistAt(es, n - 1)(id) != [] || (es[n - 1].Observe? && es[n - 1].id == id) {
        HistNext(es, n - 1, id);
      }
      if es[n - 1].Check? {
        KeysOfOrder(m, HistAt(es, n - 1));
        CheckedSpecsKeys(c, m, Specs(c), es[n - 1].at, es[n - 1].anyLive, es[n - 1].sttUp);
        SameOrderOk(m, After(c, es, n), HistAt(es, n - 1), HistAt(es, n));
      } else {
        ObservedOrderOk(c, m, es[n - 1].id, Sample(es[n - 1].at, es[n - 1].value), HistAt(es, n - 1), HistAt(es, n));
      }
    } else {
      assert forall id :: HistAt(es, 0)(id) == [];
    }
  }

  lemma KeysOfOrder(m: Monitor, h: Id -> seq<Sample>)
    requires OrderOk(m, h)
    ensures forall id :: id in m.order ==> id in m.windows
  {
  }

  /** Every check judges, in the source's order, each spec not skipped on each key ever observed for
      its signal, and judges the full history: the observations within the spec's span, among the
      last 4096, whatever earlier checks dropped from the deques. */
  lemma CheckJudgesHistory(c: Settings, es: seq<Event>, n: nat)
    requires c.enabled && Timely(es) && n < |es| && es[n].Check?
    ensures var m, r := After(c, es, n), After(c, es, n + 1);
      Found(r.log) == Found(m.log) + ExpectedAll(Specs(c), m.order, HistAt(es, n), es[n].at, es[n].anyLive, es[n].sttUp)
  {
    var m := After(c, es, n);
    assert n > 0 ==> es[n - 1].at <= es[n].at;
    RunKept(c, es, n, es[n].at);
    HistAtInOrder(es, n);
    SpecsOwnSpans(c);
    CheckedSpecsRefines(c, m, Specs(c), HistAt(es, n), es[n].at, es[n].anyLive, es[n].sttUp);
  }

  /** Bad means: enough samples, and fewer of them within the limit than the quantile's rank. */
  lemma BadMeans(spec: Spec, values: seq<int>)
    requires spec.minSamples >= 1
    ensures Bad(spec, values) <==>
      |values| >= spec.minSamples && CountAtMost(values, spec.limit) < Rank(spec.quantile, |values|)
  {
    if values != [] {
      QuantileAbove(values, spec.quantile, spec.limit);
    }
  }

  // ---- each SLO by its name --------------------------------------------------------------

  const NAMES := ["stt_tier", "authoritative", "copilot_roundtrip", "copilot_staleness", "finalize"]

  function SignalOf(slo: string): string { if slo == "stt_tier" then "stt_request" else slo }

  function LimitOf(c: Settings, slo: string): int {
    if slo == "stt_tier" then c.sttTier
    else if slo == "authoritative" then c.authoritative
    else if slo == "copilot_roundtrip" then c.roundtrip
    else if slo == "copilot_staleness" then c.staleness
    else c.finalize
  }

  /** Enough of the last 4096 observations lie within the span, and of those fewer than 95 in a hundred
      are within the limit; for the final notes, two of the last six hours, and fewer than half. */
  predicate TooSlow(c: Settings, slo: string, h: seq<Sample>, now: int) {
    if slo == "finalize" then
      var v := Values(Recent(Last(h), now - 6 * 3600 * 1000));
      |v| >= 2 && 100 * CountAtMost(v, c.finalize) < 50 * |v|
    else
      var v := Values(Recent(Last(h), now - c.window));
      |v| >= c.minSamples && 100 * CountAtMost(v, LimitOf(c, slo)) < 95 * |v|
  }

  lemma {:induction false} ExpectedHas(spec: Spec, order: seq<Id>, h: Id -> seq<Sample>, now: int, p: (Id, bool))
    ensures p in Expected(spec, order, h, now) <==>
      p.0.name == spec.slo && Id(spec.signal, p.0.key) in order && p.1 == HistoryVerdict(spec, h(Id(spec.signal, p.0.key)), now)
  {
    hide HistoryVerdict;
    if order == [] {
    } else {
      assert order == order[..|order| - 1] + [order[|order| - 1]];
      ExpectedHas(spec, order[..|order| - 1], h, now, p);
    }
  }

  ghost predicate From(specs: seq<Spec>, j: int, order: seq<Id>, h: Id -> seq<Sample>, now: int, anyLive: bool, sttUp: bool,
    p: (Id, bool))
    requires 0 <= j < |specs|
  {
    !Skipped(specs[j], anyLive, sttUp) && p in Expected(specs[j], order, h, now)
  }

  lemma {:induction false} ExpectedAllHas(specs: seq<Spec>, order: seq<Id>, h: Id -> seq<Sample>, now: int,
      anyLive: bool, sttUp: bool, p: (Id, bool))
    ensures p in ExpectedAll(specs, order, h, now, anyLive, sttUp) <==>
      exists j :: 0 <= j < |specs| && From(specs, j, order, h, now, anyLive, sttUp, p)
  {
    hide Expected, Skipped;
    if specs == [] {
    } else {
      var init, k := specs[..|specs| - 1], |specs| - 1;
      ExpectedAllHas(init, order, h, now, anyLive, sttUp, p);
      forall j | 0 <= j < k ensures From(init, j, order, h, now, anyLive, sttUp, p) <==> From(specs, j, order, h, now, anyLive, sttUp, p) {
      }
      if p in ExpectedAll(init, order, h, now, anyLive, sttUp) {
        var j :| 0 <= j < k && From(init, j, order, h, now, anyLive, sttUp, p);
        assert From(specs, j, order, h, now, anyLive, sttUp, p);
      }
      assert From(specs, k, order, h, now, anyLive, sttUp, p) <==>
        !Skipped(specs[k], anyLive, sttUp) && p in Expected(specs[k], order, h, now);
    }
  }

  lemma BadInHundred(spec: Spec, v: seq<int>)
    requires spec.minSamples >= 1
    ensures Bad(spec, v) <==> |v| >= spec.minSamples && 100 * CountAtMost(v, spec.limit) < spec.quantile * |v|
  {
    BadMeans(spec, v);
    if v != [] {
      RankMeans(spec.quantile, |v|);
    }
    hide Bad, CountAtMost, Rank;
  }

  lemma SpecSays(c: Settings, j: nat)
    requires j < 5
    ensures var s := Specs(c)[j];
      if NAMES[j] == "finalize" then s.limit == c.finalize && s.quantile == 50 && s.window == 6 * 3600 * 1000 && s.minSamples == 2
      else s.limit == LimitOf(c, NAMES[j]) && s.quantile == 95 && s.window == c.window && s.minSamples == c.minSamples
  {
  }

  lemma VerdictBySpec(c: Settings, j: nat, h: seq<Sample>, now: int)
    requires j < 5 && c.minSamples >= 1
    ensures HistoryVerdict(Specs(c)[j], h, now) == TooSlow(c, NAMES[j], h, now)
  {
    hide Recent, Last, Values, CountAtMost, Bad, Specs, LimitOf;
    SpecNamed(c, j);
    SpecSays(c, j);
    var spec := Specs(c)[j];
    BadInHundred(spec, Values(Recent(Last(h), now - spec.window)));
  }

  /** So each check judges each of the five SLOs on each key its signal was ever observed for, the four
      of a live session only while one is live and a transcriber is up, and finds it bad exactly if it
      is too slow by all that was observed; and it judges nothing else. */
  lemma EachJudged(c: Settings, es: seq<Event>, n: nat, p: (Id, bool))
    requires c.enabled && c.minSamples >= 1 && Timely(es) && n < |es| && es[n].Check?
    ensures var m, r := After(c, es, n), After(c, es, n + 1);
      |m.log| <= |r.log| && (p in Found(r.log)[|m.log|..] <==>
        && p.0.name in NAMES && Hist(es, n, Id(SignalOf(p.0.name), p.0.key)) != []
        && (p.0.name == "finalize" || (es[n].anyLive && es[n].sttUp))
        && p.1 == TooSlow(c, p.0.name, Hist(es, n, Id(SignalOf(p.0.name), p.0.key)), es[n].at))
  {
    CheckJudgesHistory(c, es, n);
    OrderIsObserved(c, es, n);
    var e, h, specs, m := es[n], HistAt(es, n), Specs(c), After(c, es, n);
    assert Found(After(c, es, n + 1).log)[|m.log|..] == ExpectedAll(specs, m.order, h, e.at, e.anyLive, e.sttUp);
    ExpectedAllHas(specs, m.order, h, e.at, e.anyLive, e.sttUp, p);
    forall j: nat | j < 5
      ensures From(specs, j, m.order, h, e.at, e.anyLive, e.sttUp, p) <==>
        NAMES[j] == p.0.name && JudgedSo(c, es, n, NAMES[j], p)
    {
      FromMeans(c, es, n, j, p);
    }
    hide After, ExpectedAll, From, Specs, JudgedSo, TooSlow, Hist, Found, OrderOk;
    SoByName(c, es, n, p);
  }

  ghost predicate JudgedSo(c: Settings, es: seq<Event>, n: nat, slo: string, p: (Id, bool))
    requires n < |es| && es[n].Check?
  {
    && Hist(es, n, Id(SignalOf(slo), p.0.key)) != []
    && (slo == "finalize" || (es[n].anyLive && es[n].sttUp))
    && p.1 == TooSlow(c, slo, Hist(es, n, Id(SignalOf(slo), p.0.key)), es[n].at)
  }

  lemma SoByName(c: Settings, es: seq<Event>, n: nat, p: (Id, bool))
    requires n < |es| && es[n].Check?
    ensures (exists j: nat :: j < 5 && NAMES[j] == p.0.name && JudgedSo(c, es, n, NAMES[j], p)) <==>
      && p.0.name in NAMES && Hist(es, n, Id(SignalOf(p.0.name), p.0.key)) != []
      && (p.0.name == "finalize" || (es[n].anyLive && es[n].sttUp))
      && p.1 == TooSlow(c, p.0.name, Hist(es, n, Id(SignalOf(p.0.name), p.0.key)), es[n].at)
  {
    hide Hist, TooSlow;
  }

  lemma FromMeans(c: Settings, es: seq<Event>, n: nat, j: nat, p: (Id, bool))
    requires c.minSamples >= 1 && n < |es| && es[n].Check? && j < 5
    requires OrderOk(After(c, es, n), HistAt(es, n))
    ensures From(Specs(c), j, After(c, es, n).order, HistAt(es, n), es[n].at, es[n].anyLive, es[n].sttUp, p) <==>
      NAMES[j] == p.0.name && JudgedSo(c, es, n, NAMES[j], p)
  {
    var h := HistAt(es, n);
    var id := Id(SignalOf(NAMES[j]), p.0.key);
    SpecNamed(c, j);
    ExpectedHas(Specs(c)[j], After(c, es, n).order, h, es[n].at, p);
    VerdictBySpec(c, j, h(id), es[n].at);
    assert h(id) == Hist(es, n, id);
    hide After, Expected, HistoryVerdict, TooSlow, Hist, Specs;
  }

  lemma SpecNamed(c: Settings, j: nat)
    requires j < 5
    ensures |Specs(c)| == 5 && Specs(c)[j].slo == NAMES[j] && Specs(c)[j].signal == SignalOf(NAMES[j])
    ensures Specs(c)[j].liveOnly <==> NAMES[j] != "finalize"
  {
  }

  /** Switched off it observes, judges and sends nothing. */
  lemma {:induction false} OffDoesNothing(c: Settings, es: seq<Event>, n: nat)
    requires !c.enabled && n <= |es|
    ensures After(c, es, n) == FRESH
  {
    if n == 0 {
    } else {
      OffDoesNothing(c, es, n - 1);
    }
  }

  /** The keys observed so far, as they first came. */
  function FirstSeen(es: seq<Event>, n: nat): seq<Id>
    requires n <= |es|
  {
    if n == 0 then []
    else
      var before := FirstSeen(es, n - 1);
      if es[n - 1].Observe? && es[n - 1].id !in before then before + [es[n - 1].id] else before
  }

  /** And that is the order in which a check goes through them. */
  lemma {:induction false} OrderIsFirstSeen(c: Settings, es: seq<Event>, n: nat)
    requires c.enabled && n <= |es|
    ensures After(c, es, n).order == FirstSeen(es, n)
  {
    hide *;
    if n == 0 {
      NothingSeen(c, es);
    } else {
      SeenNext(c, es, n - 1);
      OrderIsFirstSeen(c, es, n - 1);
      OrderIsObserved(c, es, n - 1);
      OrderStep(c, After(c, es, n - 1), es[n - 1], HistAt(es, n - 1));
    }
  }

  lemma NothingSeen(c: Settings, es: seq<Event>)
    ensures After(c, es, 0).order == [] == FirstSeen(es, 0)
  {
  }

  lemma SeenNext(c: Settings, es: seq<Event>, m: nat)
    requires m < |es|
    ensures After(c, es, m + 1) == Step(c, After(c, es, m), es[m])
    ensures var before := FirstSeen(es, m);
      FirstSeen(es, m + 1) == if es[m].Observe? && es[m].id !in before then before + [es[m].id] else before
  {
    hide Step;
  }

  lemma OrderStep(c: Settings, m: Monitor, e: Event, h: Id -> seq<Sample>)
    requires c.enabled && OrderOk(m, h)
    ensures Step(c, m, e).order == if e.Observe? && e.id !in m.order then m.order + [e.id] else m.order
  {
    hide CheckedSpecs, Specs, Append;
    KeysOfOrder(m, h);
    if e.Check? {
      CheckedSpecsKeys(c, m, Specs(c), e.at, e.anyLive, e.sttUp);
    }
  }
}
