/** The two trigger keys (linux/src/jarvis_desktop/trigger.py): the classes as the source writes
    them, each method tied to a step of a state machine on values. Times are whole milliseconds. */
module Trigger {
  import opened Options

  datatype Action = Begin | Commit | Cancel | Toggle | Tapped | DoubleTapped | AskBegin | AskEnd
  datatype Mode = Hold | Tap | DoubleTap
  datatype Key = Off | RightCtrl | RightAlt | RightShift | RightMeta

  const HOLD_THRESHOLD := 200
  const TAP_MAX_DURATION := 350
  const DOUBLE_TAP_GAP := 400
  const TOLERANCE := 10

  function Code(k: Key): Option<int> {
    match k
    case Off => None
    case RightCtrl => Some(97)
    case RightAlt => Some(100)
    case RightShift => Some(54)
    case RightMeta => Some(126)
  }

  // ---- the machine on values -------------------------------------------------------------

  /** A trigger key: when it went down, whether other input came since, whether its hold began. */
  datatype Press = Press(at: Option<int>, chorded: bool, began: bool)
  datatype Dictation = Dictation(press: Press, lastTapAt: Option<int>)

  const RELEASED := Press(None, false, false)

  function PressDown(key: Key, p: Press, time: int): Press {
    if key == Off || p.at.Some? then p else Press(Some(time), false, false)
  }

  /** A lone press has been held for long enough. */
  predicate HoldDue(p: Press, time: int) {
    p.at.Some? && !p.chorded && !p.began && time - p.at.value >= HOLD_THRESHOLD - TOLERANCE
  }

  function DictationTick(mode: Mode, d: Dictation, time: int): (Dictation, Option<Action>) {
    if mode == Hold && HoldDue(d.press, time) then (d.(press := d.press.(began := true)), Some(Begin)) else (d, None)
  }

  function DictationUp(mode: Mode, d: Dictation, time: int): (Dictation, Option<Action>) {
    if d.press.at.None? then (d, None)
    else
      var pressedAt := d.press.at.value;
      var up := d.(press := d.press.(at := None));
      var loneTap := !d.press.chorded && time - pressedAt <= TAP_MAX_DURATION;
      match mode
      case Hold => (up.(press := up.press.(began := false)), if d.press.began then Some(Commit) else None)
      case Tap => (up, if loneTap then Some(Toggle) else None)
      case DoubleTap =>
        if !loneTap then (up.(lastTapAt := None), None)
        else if d.lastTapAt.Some? && pressedAt - d.lastTapAt.value <= DOUBLE_TAP_GAP then
          (up.(lastTapAt := None), Some(DoubleTapped))
        else (up.(lastTapAt := Some(time)), Some(Tapped))
  }

  function DictationOther(d: Dictation): (Dictation, Option<Action>) {
    if d.press.at.None? then (d.(lastTapAt := None), None)
    else (Dictation(Press(d.press.at, true, false), None), if d.press.began then Some(Cancel) else None)
  }

  function AskTick(p: Press, time: int): (Press, Option<Action>) {
    if HoldDue(p, time) then (p.(began := true), Some(AskBegin)) else (p, None)
  }

  function AskUp(p: Press): (Press, Option<Action>) {
    if p.at.None? then (p, None) else (Press(None, p.chorded, false), if p.began then Some(AskEnd) else None)
  }

  function AskOther(p: Press): Press { if p.at.Some? && !p.began then p.(chorded := true) else p }

  datatype Config = Config(dictationKey: Key, mode: Mode, askKey: Key)
  datatype State = State(d: Dictation, a: Press)

  const START := State(Dictation(RELEASED, None), RELEASED)

  datatype Input = KeyDown(code: int, time: int) | KeyUp(code: int, time: int) | Tick(time: int) | Other | Escape

  function StepOther(s: State): (State, Option<Action>) {
    var r := DictationOther(s.d);
    (State(r.0, AskOther(s.a)), r.1)
  }

  /** `Keys`: one input, and the action it returns. */
  function Step(c: Config, s: State, e: Input): (State, Option<Action>) {
    match e
    case KeyDown(code, time) =>
      if Some(code) == Code(c.dictationKey) then
        var a := AskOther(s.a);
        var d := s.d.(press := PressDown(c.dictationKey, s.d.press, time));
        (State(if a.at.Some? then DictationOther(d).0 else d, a), None)
      else if Some(code) == Code(c.askKey) then
        var r := DictationOther(s.d);
        var a := PressDown(c.askKey, s.a, time);
        (State(r.0, if r.0.press.at.Some? then AskOther(a) else a), r.1)
      else StepOther(s)
    case KeyUp(code, time) =>
      if Some(code) == Code(c.dictationKey) then
        var r := DictationUp(c.mode, s.d, time);
        (s.(d := r.0), r.1)
      else if Some(code) == Code(c.askKey) then
        var r := AskUp(s.a);
        (s.(a := r.0), r.1)
      else (s, None)
    case Tick(time) =>
      var ask := AskTick(s.a, time);
      if ask.1.Some? then (s.(a := ask.0), ask.1)
      else
        var r := DictationTick(c.mode, s.d, time);
        (State(r.0, ask.0), r.1)
    case Other => StepOther(s)
    case Escape => (StepOther(s).0, Some(Cancel))
  }

  // ---- the classes -----------------------------------------------------------------------

  class DictationTrigger {
    const key: Key
    const mode: Mode
    var pressedAt: Option<int>
    var chorded: bool
    var began: bool
    var lastTapAt: Option<int>

    constructor (key: Key, mode: Mode)
      ensures this.key == key && this.mode == mode && Value() == START.d
    {
      this.key, this.mode := key, mode;
      pressedAt, chorded, began, lastTapAt := None, false, false, None;
    }

    function Value(): Dictation reads this { Dictation(Press(pressedAt, chorded, began), lastTapAt) }

    method Down(time: int)
      modifies this
      ensures Value() == old(Value()).(press := PressDown(key, old(Value()).press, time))
    {
      if key == Off || pressedAt.Some? {
        return;
      }
      pressedAt, chorded, began := Some(time), false, false;
    }

    method Tick(time: int) returns (r: Option<Action>)
      modifies this
      ensures (Value(), r) == DictationTick(mode, old(Value()), time)
    {
      if mode != Hold || pressedAt.None? || chorded || began || time - pressedAt.value < HOLD_THRESHOLD - TOLERANCE {
        return None;
      }
      began := true;
      r := Some(Begin);
    }

    method Up(time: int) returns (r: Option<Action>)
      modifies this
      ensures (Value(), r) == DictationUp(mode, old(Value()), time)
    {
      if pressedAt.None? {
        return None;
      }
      var downAt := pressedAt.value;
      pressedAt := None;
      var loneTap := !chorded && time - downAt <= TAP_MAX_DURATION;
      if mode == Hold {
        r := if began then Some(Commit) else None;
        began := false;
        return;
      }
      if mode == Tap {
        return if loneTap then Some(Toggle) else None;
      }
      if !loneTap {
        lastTapAt := None;
        return None;
      }
      if lastTapAt.Some? && downAt - lastTapAt.value <= DOUBLE_TAP_GAP {
        lastTapAt := None;
        return Some(DoubleTapped);
      }
      lastTapAt := Some(time);
      r := Some(Tapped);
    }

    method OtherInput() returns (r: Option<Action>)
      modifies this
      ensures (Value(), r) == DictationOther(old(Value()))
    {
      lastTapAt := None;
      if pressedAt.None? {
        return None;
      }
      chorded := true;
      if !began {
        return None;
      }
      began := false;
      r := Some(Cancel);
    }

    method Escape() returns (r: Option<Action>)
      modifies this
      ensures Value() == DictationOther(old(Value())).0 && r == Some(Cancel)
    {
      var _ := OtherInput();
      r := Some(Cancel);
    }
  }

  class AskTrigger {
    var key: Key
    var pressedAt: Option<int>
    var chorded: bool
    var began: bool

    constructor (key: Key)
      ensures this.key == key && Value() == START.a
    {
      this.key, pressedAt, chorded, began := key, None, false, false;
    }

    function Value(): Press reads this { Press(pressedAt, chorded, began) }

    method Down(time: int)
      modifies this
      ensures key == old(key) && Value() == PressDown(key, old(Value()), time)
    {
      if key == Off || pressedAt.Some? {
        return;
      }
      pressedAt, chorded, began := Some(time), false, false;
    }

    method Tick(time: int) returns (r: Option<Action>)
      modifies this
      ensures key == old(key) && (Value(), r) == AskTick(old(Value()), time)
    {
      if pressedAt.None? || chorded || began || time - pressedAt.value < HOLD_THRESHOLD - TOLERANCE {
        return None;
      }
      began := true;
      r := Some(AskBegin);
    }

    method Up(time: int) returns (r: Option<Action>)
      modifies this
      ensures key == old(key) && (Value(), r) == AskUp(old(Value()))
    {
      if pressedAt.None? {
        return None;
      }
      pressedAt := None;
      r := if began then Some(AskEnd) else None;
      began := false;
    }

    method OtherInput()
      modifies this
      ensures key == old(key) && Value() == AskOther(old(Value()))
    {
      if pressedAt.Some? && !began {
        chorded := true;
      }
    }

    method Escape()
      modifies this
      ensures key == old(key) && Value() == AskOther(old(Value()))
    {
      OtherInput();
    }
  }

  class Keys {
    const dictation: DictationTrigger
    const ask: AskTrigger

    /** One key cannot do both; dictation keeps it. */
    constructor (dictation: DictationTrigger, ask: AskTrigger)
      modifies ask
      ensures this.dictation == dictation && this.ask == ask
      ensures ask.key == (if old(ask.key) == dictation.key then Off else old(ask.key)) && ask.Value() == old(ask.Value())
      ensures ConfigOk(Setting())
    {
      this.dictation, this.ask := dictation, ask;
      new;
      if ask.key == dictation.key {
        ask.key := Off;
      }
    }

    function Setting(): Config reads this, dictation, ask { Config(dictation.key, dictation.mode, ask.key) }
    function Value(): State reads this, dictation, ask { State(dictation.Value(), ask.Value()) }

    method Down(code: int, time: int) returns (r: Option<Action>)
      modifies dictation, ask
      ensures Setting() == old(Setting()) && (Value(), r) == Step(Setting(), old(Value()), KeyDown(code, time))
    {
      if Some(code) == Code(dictation.key) {
        ask.OtherInput();
        dictation.Down(time);
        if ask.pressedAt.Some? {
          var _ := dictation.OtherInput();
        }
        return None;
      }
      if Some(code) == Code(ask.key) {
        r := dictation.OtherInput();
        ask.Down(time);
        if dictation.pressedAt.Some? {
          ask.OtherInput();
        }
        return;
      }
      r := OtherInput();
    }

    method Up(code: int, time: int) returns (r: Option<Action>)
      modifies dictation, ask
      ensures Setting() == old(Setting()) && (Value(), r) == Step(Setting(), old(Value()), KeyUp(code, time))
    {
      if Some(code) == Code(dictation.key) {
        r := dictation.Up(time);
        return;
      }
      if Some(code) == Code(ask.key) {
        r := ask.Up(time);
        return;
      }
      r := None;
    }

    method Tick(time: int) returns (r: Option<Action>)
      modifies dictation, ask
      ensures Setting() == old(Setting()) && (Value(), r) == Step(Setting(), old(Value()), Input.Tick(time))
    {
      r := ask.Tick(time);
      if r.None? {
        r := dictation.Tick(time);
      }
    }

    method OtherInput() returns (r: Option<Action>)
      modifies dictation, ask
      ensures Setting() == old(Setting()) && (Value(), r) == Step(Setting(), old(Value()), Other)
    {
      ask.OtherInput();
      r := dictation.OtherInput();
    }

    method Escape() returns (r: Option<Action>)
      modifies dictation, ask
      ensures Setting() == old(Setting()) && (Value(), r) == Step(Setting(), old(Value()), Input.Escape)
    {
      ask.Escape();
      r := dictation.Escape();
    }
  }

  /** What the constructor of `Keys` sees to. */
  predicate ConfigOk(c: Config) { c.askKey == c.dictationKey ==> c.askKey == Off }

  // ---- runs ------------------------------------------------------------------------------

  /** The state after the first `n` inputs. */
  function After(c: Config, es: seq<Input>, n: nat): State
    requires n <= |es|
  {
    if n == 0 then START else Step(c, After(c, es, n - 1), es[n - 1]).0
  }

  /** What input `i` returned. */
  function Act(c: Config, es: seq<Input>, i: nat): Option<Action>
    requires i < |es|
  {
    Step(c, After(c, es, i), es[i]).1
  }

  ghost predicate Inv(c: Config, s: State) {
    && (s.d.press.at.Some? && s.a.at.Some? ==> s.d.press.chorded && !s.d.press.began && (s.a.chorded || s.a.began))
    && (s.d.press.began ==> c.mode == Hold && s.d.press.at.Some? && !s.d.press.chorded)
    && (s.a.began ==> s.a.at.Some? && !s.a.chorded)
    && (c.mode != DoubleTap ==> s.d.lastTapAt.None?)
  }

  lemma StepInv(c: Config, s: State, e: Input)
    requires ConfigOk(c) && Inv(c, s)
    ensures Inv(c, Step(c, s, e).0)
  {
  }

  lemma {:induction false} RunInv(c: Config, es: seq<Input>, n: nat)
    requires ConfigOk(c) && n <= |es|
    ensures Inv(c, After(c, es, n))
  {
    if n == 0 {
    } else {
      RunInv(c, es, n - 1);
      StepInv(c, After(c, es, n - 1), es[n - 1]);
    }
  }

  // ---- what a listener sees --------------------------------------------------------------

  /** What is under way, judged by the actions returned alone. */
  datatype Doing = Nothing | Dictating | Asking

  /** What an action means to a listener, or None if it makes no sense to it. An Esc is always
      reported, even with nothing to cancel or during an ask. */
  function Hears(mode: Mode, w: Doing, e: Input, a: Option<Action>): Option<Doing> {
    match a
    case None => if e.Escape? then None else Some(w)
    case Some(Begin) => if w.Nothing? && mode == Hold then Some(Dictating) else None
    case Some(Commit) => if w.Dictating? && mode == Hold then Some(Nothing) else None
    case Some(Cancel) => if w.Dictating? then Some(Nothing) else if e.Escape? then Some(w) else None
    case Some(Toggle) => if w.Nothing? && mode == Tap then Some(w) else None
    case Some(Tapped) => if w.Nothing? && mode == DoubleTap then Some(w) else None
    case Some(DoubleTapped) => if w.Nothing? && mode == DoubleTap then Some(w) else None
    case Some(AskBegin) => if w.Nothing? then Some(Asking) else None
    case Some(AskEnd) => if w.Asking? then Some(Nothing) else None
  }

  function Heard(c: Config, es: seq<Input>, n: nat): Option<Doing>
    requires n <= |es|
  {
    if n == 0 then Some(Nothing)
    else
      var w := Heard(c, es, n - 1);
      if w.None? then None else Hears(c.mode, w.value, es[n - 1], Act(c, es, n - 1))
  }

  function DoingOf(s: State): Doing {
    if s.d.press.began then Dictating else if s.a.began then Asking else Nothing
  }

  lemma StepHeard(c: Config, s: State, e: Input)
    requires ConfigOk(c) && Inv(c, s)
    ensures var r := Step(c, s, e); Hears(c.mode, DoingOf(s), e, r.1) == Some(DoingOf(r.0))
  {
  }

  /** Over every run the actions make sense: a begin comes only with nothing under way, so the two
      keys are never both held into an action; every commit closes an open begin, an ask's begin and
      end alternate, taps come in their own mode and with nothing under way, and no cancel that ends
      a dictation is lost. What a listener concludes is what the triggers themselves hold. */
  lemma {:induction false} ActionsMakeSense(c: Config, es: seq<Input>, n: nat)
    requires ConfigOk(c) && n <= |es|
    ensures Heard(c, es, n) == Some(DoingOf(After(c, es, n)))
    ensures !(After(c, es, n).d.press.began && After(c, es, n).a.began)
  {
    RunInv(c, es, n);
    if n == 0 {
    } else {
      ActionsMakeSense(c, es, n - 1);
      RunInv(c, es, n - 1);
      StepHeard(c, After(c, es, n - 1), es[n - 1]);
    }
  }

  /** A dictation is committed exactly at the dictation key's release while one is under way. */
  lemma CommitIsRelease(c: Config, es: seq<Input>, i: nat)
    requires ConfigOk(c) && i < |es|
    ensures Act(c, es, i) == Some(Commit) <==> Heard(c, es, i) == Some(Dictating) && IsUp(es[i], Code(c.dictationKey))
  {
    ActionsMakeSense(c, es, i);
    RunInv(c, es, i);
    hide After, Heard;
  }

  /** Another key, the ask key included, or other input. */
  predicate Disturbs(c: Config, e: Input) { e.Other? || (e.KeyDown? && !IsDown(e, Code(c.dictationKey))) }

  /** A cancel comes exactly at Esc, and at whatever disturbs a dictation under way. */
  lemma CancelIsDisturbed(c: Config, es: seq<Input>, i: nat)
    requires ConfigOk(c) && i < |es|
    ensures Act(c, es, i) == Some(Cancel) <==>
      es[i].Escape? || (Heard(c, es, i) == Some(Dictating) && Disturbs(c, es[i]))
  {
    ActionsMakeSense(c, es, i);
    RunInv(c, es, i);
    hide After, Heard;
  }

  /** An ask ends exactly at the ask key's release while one is under way, and at nothing else. */
  lemma AskEndIsRelease(c: Config, es: seq<Input>, i: nat)
    requires ConfigOk(c) && i < |es|
    ensures Act(c, es, i) == Some(AskEnd) <==> Heard(c, es, i) == Some(Asking) && IsUp(es[i], Code(c.askKey))
  {
    ActionsMakeSense(c, es, i);
    RunInv(c, es, i);
    hide After, Heard;
  }

  /** When the ask's tick has something to say, dictation's had nothing: the `or` hides no action
      and skips no state change. */
  lemma TickHidesNothing(c: Config, es: seq<Input>, n: nat, time: int)
    requires ConfigOk(c) && n <= |es|
    ensures var s := After(c, es, n);
      AskTick(s.a, time).1.Some? ==> DictationTick(c.mode, s.d, time) == (s.d, None)
  {
    RunInv(c, es, n);
  }

  ghost predicate Spoiled(c: Config, s: State) {
    Inv(c, s) && s.d.press.at.Some? && s.d.press.chorded
  }

  predicate IsUp(e: Input, code: Option<int>) { e.KeyUp? && Some(e.code) == code }
  predicate IsDown(e: Input, code: Option<int>) { e.KeyDown? && Some(e.code) == code }

  /** Once both keys were down together, the dictation press comes to nothing: up to and with its
      release, the only actions are the answer to Esc and the end of an ask already begun. */
  lemma {:induction false} OverlapComesToNothing(c: Config, es: seq<Input>, m: nat, n: nat)
    requires ConfigOk(c) && m <= n < |es|
    requires After(c, es, m).d.press.at.Some? && After(c, es, m).a.at.Some?
    requires forall k :: m <= k < n ==> !IsUp(es[k], Code(c.dictationKey))
    ensures Spoiled(c, After(c, es, n))
    ensures After(c, es, n).a.began ==> After(c, es, m).a.began
    ensures match Act(c, es, n)
      case Some(Cancel) => es[n].Escape?
      case Some(AskEnd) => After(c, es, m).a.began && IsUp(es[n], Code(c.askKey))
      case a => a == None
    decreases n
  {
    RunInv(c, es, n);
    if m == n {
    } else {
      OverlapComesToNothing(c, es, m, n - 1);
    }
  }

  // ---- taps, by what happened ------------------------------------------------------------

  /** A key is held when the last thing heard of it is a press. */
  predicate Held(es: seq<Input>, n: nat, code: Option<int>)
    requires n <= |es|
  {
    n > 0 && (IsDown(es[n - 1], code) || (!IsUp(es[n - 1], code) && Held(es, n - 1, code)))
  }

  /** Input `k` does not disturb a tap: a tick, the dictation key's press or its repeats while the
      ask key is up, or any release but that of the held dictation key. */
  predicate Calm(c: Config, es: seq<Input>, k: nat)
    requires k < |es|
  {
    match es[k]
    case Tick(_) => true
    case KeyDown(_, _) => IsDown(es[k], Code(c.dictationKey)) && !Held(es, k, Code(c.askKey))
    case KeyUp(_, _) => !(IsUp(es[k], Code(c.dictationKey)) && Held(es, k, Code(c.dictationKey)))
    case Other => false
    case Escape => false
  }

  /** The dictation key goes down at `j`. */
  predicate Starts(c: Config, es: seq<Input>, j: nat)
    requires j < |es|
  {
    IsDown(es[j], Code(c.dictationKey)) && !Held(es, j, Code(c.dictationKey))
  }

  ghost predicate CalmFrom(c: Config, es: seq<Input>, j: nat, n: nat)
    requires n <= |es|
  {
    forall k :: j <= k < n ==> Calm(c, es, k)
  }

  /** A short press from `j` to `i` with no other input inside it. */
  ghost predicate LoneTap(c: Config, es: seq<Input>, j: nat, i: nat)
    requires j < i < |es|
  {
    && Starts(c, es, j) && CalmFrom(c, es, j, i)
    && IsUp(es[i], Code(c.dictationKey)) && es[i].time - es[j].time <= 350
  }

  /** The start of the press under way, or -1. */
  function PressStart(c: Config, es: seq<Input>, n: nat): (j: int)
    requires n <= |es|
    ensures -1 <= j < n && (j >= 0 <==> Held(es, n, Code(c.dictationKey)))
    ensures j >= 0 ==> Starts(c, es, j)
    ensures j >= 0 ==> forall k :: j < k < n ==> Held(es, k, Code(c.dictationKey)) && !IsUp(es[k], Code(c.dictationKey))
  {
    if n == 0 || IsUp(es[n - 1], Code(c.dictationKey)) then -1
    else
      var j := PressStart(c, es, n - 1);
      if j < 0 && IsDown(es[n - 1], Code(c.dictationKey)) then n - 1 else j
  }

  /** The machine's fields, by what happened: who is held, since when, and whether undisturbed. */
  ghost predicate Tracks(c: Config, es: seq<Input>, n: nat)
    requires n <= |es|
  {
    var s, j := After(c, es, n), PressStart(c, es, n);
    && s.a.at.Some? == Held(es, n, Code(c.askKey))
    && s.d.press.at.Some? == (j >= 0)
    && (j >= 0 ==> s.d.press.at == Some(es[j].time) && (s.d.press.chorded <==> !CalmFrom(c, es, j, n)))
  }

  lemma {:induction false} AskHeld(c: Config, es: seq<Input>, n: nat)
    requires ConfigOk(c) && n <= |es|
    ensures After(c, es, n).a.at.Some? == Held(es, n, Code(c.askKey))
  {
    if n == 0 {
    } else {
      AskHeld(c, es, n - 1);
    }
  }

  /** What one input does to the dictation press under way. */
  lemma StepTracks(c: Config, es: seq<Input>, m: nat)
    requires ConfigOk(c) && m < |es| && Tracks(c, es, m)
    ensures var p, q, i, j := After(c, es, m).d.press, After(c, es, m + 1).d.press, PressStart(c, es, m), PressStart(c, es, m + 1);
      && q.at.Some? == (j >= 0)
      && (j >= 0 && j == i ==> q.at == p.at && (q.chorded <==> p.chorded || !Calm(c, es, m)))
      && (j >= 0 && j != i ==> j == m && q.at == Some(es[m].time) && (q.chorded <==> !Calm(c, es, m)))
  {
    hide CalmFrom;
    RunInv(c, es, m);
  }

  lemma {:induction false} RunTracks(c: Config, es: seq<Input>, n: nat)
    requires ConfigOk(c) && n <= |es|
    ensures Tracks(c, es, n)
  {
    AskHeld(c, es, n);
    if n == 0 {
    } else {
      RunTracks(c, es, n - 1);
      StepTracks(c, es, n - 1);
      hide Held, After, Step, Calm, PressStart;
      var j := PressStart(c, es, n);
      if 0 <= j {
        assert CalmFrom(c, es, j, n) <==> (j < n - 1 ==> CalmFrom(c, es, j, n - 1)) && Calm(c, es, n - 1);
      }
    }
  }

  /** There is one press a lone tap can be of: the one under way. */
  lemma OnePress(c: Config, es: seq<Input>, j: nat, i: nat)
    requires j < i < |es| && Starts(c, es, j) && CalmFrom(c, es, j, i)
    ensures PressStart(c, es, i) == j
    decreases i
  {
    if j < i - 1 {
      OnePress(c, es, j, i - 1);
      assert Calm(c, es, i - 1);
    }
  }

  /** A release is a lone tap for the machine exactly if it is one by what happened. */
  lemma LoneTaps(c: Config, es: seq<Input>, i: nat)
    requires ConfigOk(c) && i < |es|
    ensures var p := After(c, es, i).d.press;
      (IsUp(es[i], Code(c.dictationKey)) && p.at.Some? && !p.chorded && es[i].time - p.at.value <= TAP_MAX_DURATION) <==>
      exists j: nat :: j < i && LoneTap(c, es, j, i)
  {
    RunTracks(c, es, i);
    var j := PressStart(c, es, i);
    if k: nat :| k < i && LoneTap(c, es, k, i) {
      OnePress(c, es, k, i);
    }
    if 0 <= j && IsUp(es[i], Code(c.dictationKey)) && CalmFrom(c, es, j, i) && es[i].time - es[j].time <= TAP_MAX_DURATION {
      assert LoneTap(c, es, j, i);
    }
  }

  /** In tap mode a toggle comes out exactly for a short press with no other input inside it. */
  lemma ToggleIsLoneTap(c: Config, es: seq<Input>, i: nat)
    requires ConfigOk(c) && i < |es|
    ensures Act(c, es, i) == Some(Toggle) <==> c.mode == Tap && exists j: nat :: j < i && LoneTap(c, es, j, i)
  {
    LoneTaps(c, es, i);
  }

  // ---- holds -----------------------------------------------------------------------------

  /** Tick `i` finds the press from `j` undisturbed and held for long enough. */
  ghost predicate LoneHold(c: Config, es: seq<Input>, j: nat, i: nat)
    requires j < i < |es|
  {
    && Starts(c, es, j) && CalmFrom(c, es, j, i)
    && es[i].Tick? && es[i].time - es[j].time >= 200 - 10
  }

  /** The press from `j` has begun a dictation before input `n`. */
  ghost predicate BegunSince(c: Config, es: seq<Input>, j: nat, n: nat)
    requires n <= |es|
  {
    exists k: nat :: j < k < n && Act(c, es, k) == Some(Begin)
  }

  /** What one input does to a press that began, as long as it is undisturbed. */
  lemma StepBegun(c: Config, es: seq<Input>, m: nat)
    requires ConfigOk(c) && m < |es| && Tracks(c, es, m)
    ensures var p, q, i, j := After(c, es, m).d.press, After(c, es, m + 1).d.press, PressStart(c, es, m), PressStart(c, es, m + 1);
      && (j >= 0 && j == i && !q.chorded ==> (q.began <==> p.began || Act(c, es, m) == Some(Begin)))
      && (j >= 0 && j != i ==> !q.began)
  {
    hide CalmFrom, Calm;
    RunInv(c, es, m);
  }

  lemma {:induction false} RunBegun(c: Config, es: seq<Input>, n: nat)
    requires ConfigOk(c) && n <= |es|
    ensures var p, j := After(c, es, n).d.press, PressStart(c, es, n);
      j >= 0 && !p.chorded ==> (p.began <==> BegunSince(c, es, j, n))
  {
    if n == 0 {
    } else {
      hide After, Step, Act, Calm, CalmFrom;
      RunBegun(c, es, n - 1);
      RunTracks(c, es, n - 1);
      StepBegun(c, es, n - 1);
      StepTracks(c, es, n - 1);
      hide PressStart, Tracks;
    }
  }

  /** In hold mode a dictation begins at the first tick that finds a press undisturbed and held for
      200 ms, less the slack, and at no other input. */
  lemma BeginIsHold(c: Config, es: seq<Input>, i: nat)
    requires ConfigOk(c) && i < |es|
    ensures Act(c, es, i) == Some(Begin) <==>
      c.mode == Hold && exists j: nat :: j < i && LoneHold(c, es, j, i) && !BegunSince(c, es, j, i)
  {
    RunTracks(c, es, i);
    RunBegun(c, es, i);
    TickHidesNothing(c, es, i, if es[i].Tick? then es[i].time else 0);
    hide BegunSince;
    forall j: nat | j < i && Starts(c, es, j) && CalmFrom(c, es, j, i) ensures PressStart(c, es, i) == j {
      OnePress(c, es, j, i);
    }
    hide After, PressStart, CalmFrom, Held;
  }

  /** The keys in each other's place: what disturbs an ask is what would disturb a dictation. */
  function Turned(c: Config): Config { Config(c.askKey, Hold, c.dictationKey) }

  /** The press of the ask key from `j` has begun an ask before input `n`. */
  ghost predicate AskedSince(c: Config, es: seq<Input>, j: int, n: nat)
    requires n <= |es|
  {
    exists k: nat :: j < k < n && Act(c, es, k) == Some(AskBegin)
  }

  /** The ask key's fields, by what happened. */
  ghost predicate AskTracks(c: Config, es: seq<Input>, n: nat)
    requires n <= |es|
  {
    var p, j := After(c, es, n).a, PressStart(Turned(c), es, n);
    && p.at.Some? == (j >= 0)
    && (j >= 0 ==>
         && p.at == Some(es[j].time) && (p.began <==> AskedSince(c, es, j, n))
         && (!p.began ==> (p.chorded <==> !CalmFrom(Turned(c), es, j, n))))
  }

  /** What input `m` does to the ask key's fields. */
  ghost predicate AskStep(c: Config, es: seq<Input>, m: nat)
    requires m < |es|
  {
    var p, q := After(c, es, m).a, After(c, es, m + 1).a;
    var i, j := PressStart(Turned(c), es, m), PressStart(Turned(c), es, m + 1);
    && q.at.Some? == (j >= 0)
    && (j >= 0 && j == i ==>
         && q.at == p.at && (q.began <==> p.began || Act(c, es, m) == Some(AskBegin))
         && (!q.began ==> (q.chorded <==> p.chorded || !Calm(Turned(c), es, m))))
    && (j >= 0 && j != i ==>
         j == m && q.at == Some(es[m].time) && !q.began && (q.chorded <==> !Calm(Turned(c), es, m)))
  }

  lemma StepAskDown(c: Config, es: seq<Input>, m: nat)
    requires ConfigOk(c) && m < |es| && Tracks(c, es, m) && es[m].KeyDown?
    requires After(c, es, m).a.at.Some? == (PressStart(Turned(c), es, m) >= 0)
    ensures AskStep(c, es, m)
  {
    hide CalmFrom, DictationUp, DictationTick, AskTick, AskUp;
    RunInv(c, es, m);
  }

  lemma StepAskUp(c: Config, es: seq<Input>, m: nat)
    requires ConfigOk(c) && m < |es| && Tracks(c, es, m) && es[m].KeyUp?
    requires After(c, es, m).a.at.Some? == (PressStart(Turned(c), es, m) >= 0)
    ensures AskStep(c, es, m)
  {
    hide CalmFrom, DictationTick, AskTick, DictationOther, AskOther;
    RunInv(c, es, m);
  }

  lemma StepAskRest(c: Config, es: seq<Input>, m: nat)
    requires ConfigOk(c) && m < |es| && Tracks(c, es, m) && !es[m].KeyDown? && !es[m].KeyUp?
    requires After(c, es, m).a.at.Some? == (PressStart(Turned(c), es, m) >= 0)
    ensures AskStep(c, es, m)
  {
    hide CalmFrom, DictationUp, AskUp;
    RunInv(c, es, m);
  }

  lemma StepAskTracks(c: Config, es: seq<Input>, m: nat)
    requires ConfigOk(c) && m < |es| && Tracks(c, es, m)
    requires After(c, es, m).a.at.Some? == (PressStart(Turned(c), es, m) >= 0)
    ensures AskStep(c, es, m)
  {
    hide Tracks, After, PressStart, AskStep;
    match es[m]
    case KeyDown(_, _) => StepAskDown(c, es, m);
    case KeyUp(_, _) => StepAskUp(c, es, m);
    case _ => StepAskRest(c, es, m);
  }

  lemma {:induction false} RunAskTracks(c: Config, es: seq<Input>, n: nat)
    requires ConfigOk(c) && n <= |es|
    ensures AskTracks(c, es, n)
  {
    if n == 0 {
    } else {
      var m := n - 1;
      RunAskTracks(c, es, m);
      RunTracks(c, es, m);
      StepAskTracks(c, es, m);
      hide Held, After, Step, Act, Calm, PressStart, Tracks;
      var j := PressStart(Turned(c), es, n);
      if 0 <= j {
        assert CalmFrom(Turned(c), es, j, n) <==> (j < m ==> CalmFrom(Turned(c), es, j, m)) && Calm(Turned(c), es, m);
      }
    }
  }

  /** An ask begins at the first tick that finds a press of its key undisturbed and held as long, in
      any mode and at no other input. */
  lemma AskBeginIsHold(c: Config, es: seq<Input>, i: nat)
    requires ConfigOk(c) && i < |es|
    ensures Act(c, es, i) == Some(AskBegin) <==>
      exists j: nat :: j < i && LoneHold(Turned(c), es, j, i) && !AskedSince(c, es, j, i)
  {
    RunAskTracks(c, es, i);
    AskActs(c, es, i);
    hide AskedSince;
    forall j: nat | j < i && Starts(Turned(c), es, j) && CalmFrom(Turned(c), es, j, i) ensures PressStart(Turned(c), es, i) == j {
      OnePress(Turned(c), es, j, i);
    }
    hide After, Act, PressStart, CalmFrom, Held;
  }

  lemma AskActs(c: Config, es: seq<Input>, i: nat)
    requires i < |es|
    ensures Act(c, es, i) == Some(AskBegin) <==> es[i].Tick? && HoldDue(After(c, es, i).a, es[i].time)
  {
    hide After;
  }

  // ---- double taps -----------------------------------------------------------------------

  /** Input `i` reported a first tap, and nothing disturbed it since. */
  ghost predicate Waiting(c: Config, es: seq<Input>, i: nat, n: nat)
    requires i < n <= |es|
  {
    Act(c, es, i) == Some(Tapped) && CalmFrom(c, es, i + 1, n)
  }

  /** A tap is reported at the release of a held key, so a later one disturbs it. */
  lemma TapDisturbs(c: Config, es: seq<Input>, i: nat)
    requires ConfigOk(c) && i < |es| && (Act(c, es, i) == Some(Tapped) || Act(c, es, i) == Some(DoubleTapped))
    ensures !Calm(c, es, i) && IsUp(es[i], Code(c.dictationKey))
  {
    RunTracks(c, es, i);
  }

  ghost predicate Remembers(c: Config, es: seq<Input>, n: nat)
    requires n <= |es|
  {
    var last := After(c, es, n).d.lastTapAt;
    && (last.Some? ==> exists i: nat :: i < n && Waiting(c, es, i, n) && IsUp(es[i], Code(c.dictationKey)) && es[i].time == last.value)
    && (last.None? ==> forall i: nat :: i < n ==> !Waiting(c, es, i, n))
  }

  lemma LaterWaiting(c: Config, es: seq<Input>, i: nat, n: nat)
    requires i < n < |es|
    ensures Waiting(c, es, i, n + 1) <==> Waiting(c, es, i, n) && Calm(c, es, n)
  {
  }

  lemma WaitingStarts(c: Config, es: seq<Input>, n: nat)
    requires n < |es|
    ensures Waiting(c, es, n, n + 1) <==> Act(c, es, n) == Some(Tapped)
  {
  }

  /** Of two taps waiting at once the earlier would have been disturbed by the later. */
  lemma OneWaiting(c: Config, es: seq<Input>, i: nat, k: nat, n: nat)
    requires ConfigOk(c) && i < n <= |es| && k < n && Waiting(c, es, i, n) && Waiting(c, es, k, n)
    ensures i == k
  {
    TapDisturbs(c, es, i);
    TapDisturbs(c, es, k);
  }

  lemma {:induction false} RunRemembers(c: Config, es: seq<Input>, n: nat)
    requires ConfigOk(c) && c.mode == DoubleTap && n <= |es|
    ensures Remembers(c, es, n)
  {
    if n == 0 {
    } else {
      hide Step, After, Tracks, Calm, CalmFrom, Waiting, Act, PressStart;
      var m := n - 1;
      RunRemembers(c, es, m);
      RunTracks(c, es, m);
      forall i: nat | i < m ensures Waiting(c, es, i, n) <==> Waiting(c, es, i, m) && Calm(c, es, m) {
        LaterWaiting(c, es, i, m);
      }
      WaitingStarts(c, es, m);
      StepRemembers(c, es, m);
    }
  }

  /** What one input does to the tap remembered. */
  lemma StepRemembers(c: Config, es: seq<Input>, m: nat)
    requires ConfigOk(c) && c.mode == DoubleTap && m < |es| && Tracks(c, es, m)
    ensures var last := After(c, es, m + 1).d.lastTapAt;
      if Calm(c, es, m) then last == After(c, es, m).d.lastTapAt && Act(c, es, m) != Some(Tapped)
      else if Act(c, es, m) == Some(Tapped) then IsUp(es[m], Code(c.dictationKey)) && last == Some(es[m].time)
      else last == None
  {
  }

  /** A first tap was reported before the press at `j`, undisturbed up to `i` and recent enough. */
  ghost predicate SecondOfTwo(c: Config, es: seq<Input>, j: nat, i: nat)
    requires j < i < |es|
  {
    exists k: nat :: k < j && Waiting(c, es, k, i) && es[k].KeyUp? && es[j].KeyDown? && es[j].time - es[k].time <= 400
  }

  /** In double-tap mode a short press with no other input inside it comes out as a double tap
      exactly if a press that reported a tap was released at most 0.4 s before it, with nothing else
      between; every other such press comes out as a tap, and no other input gives either. */
  lemma DoubleTaps(c: Config, es: seq<Input>, i: nat)
    requires ConfigOk(c) && i < |es|
    ensures Act(c, es, i) == Some(DoubleTapped) <==>
      c.mode == DoubleTap && exists j: nat :: j < i && LoneTap(c, es, j, i) && SecondOfTwo(c, es, j, i)
    ensures Act(c, es, i) == Some(Tapped) <==>
      c.mode == DoubleTap && exists j: nat :: j < i && LoneTap(c, es, j, i) && !SecondOfTwo(c, es, j, i)
  {
    LoneTaps(c, es, i);
    if c.mode == DoubleTap {
      forall j: nat | j < i && LoneTap(c, es, j, i)
        ensures Act(c, es, i) == Some(if SecondOfTwo(c, es, j, i) then DoubleTapped else Tapped)
      {
        SecondTap(c, es, j, i);
      }
    }
  }

  lemma TapAction(c: Config, es: seq<Input>, j: nat, i: nat)
    requires ConfigOk(c) && c.mode == DoubleTap && j < i < |es| && LoneTap(c, es, j, i)
    ensures var last := After(c, es, i).d.lastTapAt;
      Act(c, es, i) ==
        Some(if last.Some? && es[j].time - last.value <= DOUBLE_TAP_GAP then DoubleTapped else Tapped)
  {
    RunTracks(c, es, i);
    OnePress(c, es, j, i);
    hide After, Held;
  }

  lemma TapBeforePress(c: Config, es: seq<Input>, k: nat, j: nat, i: nat)
    requires j < i < |es| && k < i && LoneTap(c, es, j, i) && IsUp(es[k], Code(c.dictationKey))
    ensures k < j && es[j].KeyDown? && es[k].KeyUp?
  {
    OnePress(c, es, j, i);
  }

  lemma SecondTap(c: Config, es: seq<Input>, j: nat, i: nat)
    requires ConfigOk(c) && c.mode == DoubleTap && j < i < |es| && LoneTap(c, es, j, i)
    ensures Act(c, es, i) == Some(if SecondOfTwo(c, es, j, i) then DoubleTapped else Tapped)
  {
    hide Act, After, Waiting, LoneTap;
    TapAction(c, es, j, i);
    RunRemembers(c, es, i);
    var last := After(c, es, i).d.lastTapAt;
    if last.Some? {
      var k: nat :| k < i && Waiting(c, es, k, i) && IsUp(es[k], Code(c.dictationKey)) && es[k].time == last.value;
      TapBeforePress(c, es, k, j, i);
      forall x: nat | x < j && Waiting(c, es, x, i) ensures x == k {
        OneWaiting(c, es, x, k, i);
      }
    }
  }
}
