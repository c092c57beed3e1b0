/** The service-level objectives and their monitor (server/src/jarvis_live/slo.py). */
module Slo {
  import opened Options
  import opened SloWindow

  datatype Settings = Settings(enabled: bool, window: int, minSamples: nat, clear: int,
    sttTier: int, authoritative: int, roundtrip: int, staleness: int, finalize: int)

  datatype Spec = Spec(slo: string, signal: string, limit: int, quantile: Percent, window: int, minSamples: nat,
    liveOnly: bool, defersTo: Option<string>)

  function P95(c: Settings, slo: string, signal: string, limit: int, defersTo: Option<string>): Spec {
    Spec(slo, signal, limit, 95, c.window, c.minSamples, true, defersTo)
  }

  /** Causes before the effects that defer to them. */
  function Specs(c: Settings): seq<Spec> {
    [P95(c, "stt_tier", "stt_request", c.sttTier, None),
     P95(c, "authoritative", "authoritative", c.authoritative, Some("stt_tier")),
     P95(c, "copilot_roundtrip", "copilot_roundtrip", c.roundtrip, None),
     P95(c, "copilot_staleness", "copilot_staleness", c.staleness, Some("copilot_roundtrip")),
     Spec("finalize", "finalize", c.finalize, 50, 6 * 3600 * 1000, 2, false, None)]
  }

  /** A signal or slo, and the key (such as a tier) it is kept for. */
  datatype Id = Id(name: string, key: string)
  datatype Breach = Breach(breached: bool, lastBad: Option<int>)
  datatype Alert = Alert(slo: string, key: string, at: int)

  /** One judgement: what was found, and whether a push went out. */
  datatype Entry = Entry(id: Id, cause: Option<string>, at: int, bad: bool, alerted: bool)

  /** The windows in the order they were first written to, the breach states, the pushes sent, and
      every judgement made. */
  datatype Monitor = Monitor(order: seq<Id>, windows: map<Id, seq<Sample>>, states: map<Id, Breach>, sent: seq<Alert>,
    log: seq<Entry>)

  const FRESH := Monitor([], map[], map[], [], [])
  const QUIET := Breach(false, None)

  function WindowOf(m: Monitor, id: Id): seq<Sample> { if id in m.windows then m.windows[id] else [] }
  function StateOf(states: map<Id, Breach>, id: Id): Breach { if id in states then states[id] else QUIET }

  function Values(q: seq<Sample>): (r: seq<int>)
    ensures |r| == |q|
  {
    seq(|q|, i requires 0 <= i < |q| => q[i].value)
  }

  /** With at least one sample demanded the second conjunct says nothing; with none demanded the
      source raises on an empty window. */
  predicate Bad(spec: Spec, values: seq<int>) {
    |values| >= spec.minSamples && values != [] && Quantile(values, spec.quantile) > spec.limit
  }

  function NextBreach(st: Breach, bad: bool, now: int, clear: int): Breach {
    if bad then Breach(true, Some(now))
    else if st.breached && (st.lastBad.Some? ==> now - st.lastBad.value >= clear) then st.(breached := false)
    else st
  }

  predicate Explained(states: map<Id, Breach>, cause: Option<string>) {
    cause.Some? && exists id :: id in states && id.name == cause.value && states[id].breached
  }

  // ---- steps -----------------------------------------------------------------------------

  function Observed(c: Settings, m: Monitor, id: Id, x: Sample): Monitor {
    if !c.enabled then m
    else m.(windows := m.windows[id := Append(WindowOf(m, id), x)], order := if id in m.windows then m.order else m.order + [id])
  }

  function Verdict(spec: Spec, q: seq<Sample>, now: int): bool { Bad(spec, Values(DropOld(q, now - spec.window))) }

  function Judged(c: Settings, m: Monitor, spec: Spec, key: string, now: int): Monitor {
    var source, id := Id(spec.signal, key), Id(spec.slo, key);
    var bad := Verdict(spec, WindowOf(m, source), now);
    var st := StateOf(m.states, id);
    var states := m.states[id := NextBreach(st, bad, now, c.clear)];
    var alerted := bad && !st.breached && !Explained(states, spec.defersTo);
    Monitor(m.order,
      m.windows[source := DropOld(WindowOf(m, source), now - spec.window)],
      states,
      if alerted then m.sent + [Alert(spec.slo, key, now)] else m.sent,
      m.log + [Entry(id, spec.defersTo, now, bad, alerted)])
  }

  /** One spec judged on each of its signal's windows. */
  function JudgedAll(c: Settings, m: Monitor, spec: Spec, order: seq<Id>, now: int): Monitor {
    if order == [] then m
    else
      var before := JudgedAll(c, m, spec, order[..|order| - 1], now);
      if order[|order| - 1].name == spec.signal then Judged(c, before, spec, order[|order| - 1].key, now) else before
  }

  predicate Skipped(spec: Spec, anyLive: bool, sttUp: bool) { spec.liveOnly && !(anyLive && sttUp) }

  function CheckedSpecs(c: Settings, m: Monitor, specs: seq<Spec>, now: int, anyLive: bool, sttUp: bool): Monitor {
    if specs == [] then m
    else
      var before := CheckedSpecs(c, m, specs[..|specs| - 1], now, anyLive, sttUp);
      var spec := specs[|specs| - 1];
      if Skipped(spec, anyLive, sttUp) then before else JudgedAll(c, before, spec, before.order, now)
  }

  function Checked(c: Settings, m: Monitor, now: int, anyLive: bool, sttUp: bool): Monitor {
    if !c.enabled then m else CheckedSpecs(c, m, Specs(c), now, anyLive, sttUp)
  }

  // ---- the class -------------------------------------------------------------------------

  class SloMonitor {
    const cfg: Settings
    var order: seq<Id>
    var windows: map<Id, seq<Sample>>
    var states: map<Id, Breach>
    var sent: seq<Alert>
    ghost var log: seq<Entry>

    constructor (cfg: Settings)
      requires cfg.minSamples >= 1
      ensures this.cfg == cfg && Valid() && Value() == FRESH
    {
      this.cfg := cfg;
      order, windows, states, sent, log := [], map[], map[], [], [];
    }

    /** Every window has its place in the order. */
    predicate Valid() reads this { forall id :: id in order ==> id in windows }

    ghost function Value(): Monitor reads this { Monitor(order, windows, states, sent, log) }

    method Observe(signal: string, key: string, value: int, now: int)
      modifies this
      ensures (old(Valid()) ==> Valid()) && Value() == Observed(cfg, old(Value()), Id(signal, key), Sample(now, value))
    {
      if cfg.enabled {
        var id := Id(signal, key);
        if id !in windows {
          order := order + [id];
          windows := windows[id := []];
        }
        windows := windows[id := Append(windows[id], Sample(now, value))];
      }
    }

    method Judge(spec: Spec, key: string, now: int)
      requires Id(spec.signal, key) in windows
      modifies this
      ensures Value() == Judged(cfg, old(Value()), spec, key, now)
      ensures windows.Keys == old(windows).Keys
    {
      var source, id := Id(spec.signal, key), Id(spec.slo, key);
      var window := PopOld(windows[source], now - spec.window);
      windows := windows[source := window];
      var bad := Bad(spec, Values(window));
      var st := if id in states then states[id] else QUIET;
      states := states[id := NextBreach(st, bad, now, cfg.clear)];
      var alerted := bad && !st.breached && !Explained(states, spec.defersTo);
      if alerted {
        sent := sent + [Alert(spec.slo, key, now)];
      }
      log := log + [Entry(id, spec.defersTo, now, bad, alerted)];
    }

    method JudgeAll(spec: Spec, now: int)
      requires Valid()
      modifies this
      ensures Value() == JudgedAll(cfg, old(Value()), spec, old(order), now)
      ensures Valid() && windows.Keys == old(windows).Keys && order == old(order)
    {
      hide Judged;
      var ids := order;
      for i := 0 to |ids|
        invariant Value() == JudgedAll(cfg, old(Value()), spec, ids[..i], now)
        invariant windows.Keys == old(windows).Keys && order == ids
      {
        assert ids[..i + 1][..i] == ids[..i] && ids[i] in ids;
        if ids[i].name == spec.signal {
          ghost var m := Value();
          Judge(spec, ids[i].key, now);
          JudgedOrder(cfg, m, spec, ids[i].key, now);
        }
      }
      assert ids[..|ids|] == ids;
    }

    method Check(now: int, anyLive: bool, sttUp: bool)
      requires Valid()
      modifies this
      ensures Value() == Checked(cfg, old(Value()), now, anyLive, sttUp)
      ensures Valid() && windows.Keys == old(windows).Keys && order == old(order)
    {
      hide JudgedAll;
      if !cfg.enabled {
        return;
      }
      var specs := Specs(cfg);
      for i := 0 to |specs|
        invariant Value() == CheckedSpecs(cfg, old(Value()), specs[..i], now, anyLive, sttUp)
        invariant windows.Keys == old(windows).Keys && order == old(order)
      {
        assert specs[..i + 1][..i] == specs[..i];
        if !(specs[i].liveOnly && !(anyLive && sttUp)) {
          JudgeAll(specs[i], now);
        }
      }
      assert specs[..|specs|] == specs;
    }
  }

  lemma JudgedOrder(c: Settings, m: Monitor, spec: Spec, key: string, now: int)
    ensures Judged(c, m, spec, key, now).order == m.order
  {
  }
}
