/** The threshold search of the diarization benchmark (scripts/diarize_bench.py), over the reals, and
    its cutting of turns into clips, in whole milliseconds. */
module Threshold {
  function CountFrom(values: seq<real>, t: real): (n: nat)
    ensures n <= |values|
  {
    if values == [] then 0 else CountFrom(values[1..], t) + if values[0] >= t then 1 else 0
  }

  function CountBelow(values: seq<real>, t: real): (n: nat)
    ensures n <= |values|
  {
    if values == [] then 0 else CountBelow(values[1..], t) + if values[0] < t then 1 else 0
  }

  function Rate(n: nat, total: nat): real { if total == 0 then 0.0 else n as real / total as real }

  /** The mistakes of a threshold: different speakers accepted, and the same one rejected. */
  function Cost(same: seq<real>, different: seq<real>, t: real): real {
    Rate(CountFrom(different, t), |different|) + Rate(CountBelow(same, t), |same|)
  }

  /** How many of the values have `p`. */
  function Times(values: seq<real>, p: real -> bool): nat {
    if values == [] then 0 else Times(values[..|values| - 1], p) + if p(values[|values| - 1]) then 1 else 0
  }

  function Share(values: seq<real>, p: real -> bool): real {
    if |values| > 0 then Times(values, p) as real / |values| as real else 0.0
  }

  /** Of the different-speaker scores the share at or above the threshold, which would be accepted, and
      of the same-speaker ones the share below it, which would be rejected, each weighing the same. */
  function Mistakes(same: seq<real>, different: seq<real>, t: real): real {
    Share(different, x => x >= t) + Share(same, x => x < t)
  }

  lemma {:induction false} TimesFirst(values: seq<real>, p: real -> bool)
    requires values != []
    ensures Times(values, p) == Times(values[1..], p) + if p(values[0]) then 1 else 0
  {
    if |values| == 1 {
    } else {
      var init := values[..|values| - 1];
      TimesFirst(init, p);
      assert init[1..] == values[1..][..|values| - 2];
    }
  }

  lemma {:induction false} CountsFrom(values: seq<real>, t: real)
    ensures CountFrom(values, t) == Times(values, x => x >= t) && CountBelow(values, t) == Times(values, x => x < t)
  {
    if values == [] {
    } else {
      CountsFrom(values[1..], t);
      TimesFirst(values, x => x >= t);
      TimesFirst(values, x => x < t);
    }
  }

  lemma CostIsMistakes(same: seq<real>, different: seq<real>, t: real)
    ensures Cost(same, different, t) == Mistakes(same, different, t)
  {
    CountsFrom(same, t);
    CountsFrom(different, t);
  }

  /** `sorted({*values})`. */
  function Insert(s: seq<real>, x: real): seq<real> {
    if s == [] || x < s[0] then [x] + s
    else if x == s[0] then s
    else [s[0]] + Insert(s[1..], x)
  }

  function Candidates(values: seq<real>): seq<real> {
    if values == [] then [] else Insert(Candidates(values[1..]), values[0])
  }

  ghost predicate Increasing(s: seq<real>) { forall i, j :: 0 <= i < j < |s| ==> s[i] < s[j] }

  lemma {:induction false} InsertIncreasing(s: seq<real>, x: real)
    requires Increasing(s)
    ensures Increasing(Insert(s, x)) && forall y :: y in Insert(s, x) <==> y in s || y == x
  {
    if s == [] || x < s[0] {
      var r := [x] + s;
      InConcat([x], s);
      forall i, j | 0 <= i < j < |r| ensures r[i] < r[j] {
        assert s[0] <= s[j - 1];
      }
    } else if x == s[0] {
      assert s[0] in s;
    } else {
      InsertIncreasing(s[1..], x);
      AboveFirst(s);
      InConcat([s[0]], s[1..]);
      InConcat([s[0]], Insert(s[1..], x));
      FirstBelow(s[0], Insert(s[1..], x));
      assert s == [s[0]] + s[1..];
    }
  }

  lemma AboveFirst(s: seq<real>)
    requires Increasing(s) && s != []
    ensures Increasing(s[1..]) && forall y :: y in s[1..] ==> s[0] < y
  {
  }

  lemma FirstBelow(x: real, more: seq<real>)
    requires Increasing(more) && forall y :: y in more ==> x < y
    ensures Increasing([x] + more)
  {
    var r := [x] + more;
    forall i, j | 0 <= i < j < |r| ensures r[i] < r[j] {
      assert r[j] == more[j - 1] && more[j - 1] in more;
    }
  }

  lemma InConcat<T>(a: seq<T>, b: seq<T>)
    ensures forall v :: v in a + b <==> v in a || v in b
  {
  }

  lemma {:induction false} CandidatesIncreasing(values: seq<real>)
    ensures Increasing(Candidates(values)) && forall y :: y in Candidates(values) <==> y in values
    ensures values != [] ==> Candidates(values) != []
  {
    if values == [] {
    } else {
      CandidatesIncreasing(values[1..]);
      InsertIncreasing(Candidates(values[1..]), values[0]);
      assert values == [values[0]] + values[1..];
    }
  }

  /** The first candidate with the fewest mistakes. With any same-speaker score at all it makes the
      fewest mistakes of every real threshold, not only of those tried. */
  method FewestMistakes(same: seq<real>, different: seq<real>) returns (t: real)
    requires same + different != []
    ensures t in same + different
    ensures forall u :: u in same + different ==> Mistakes(same, different, t) <= Mistakes(same, different, u)
    ensures forall u :: u in same + different && Mistakes(same, different, u) == Mistakes(same, different, t) ==> t <= u
    ensures same != [] ==> forall x: real :: Mistakes(same, different, t) <= Mistakes(same, different, x)
  {
    forall x: real ensures Cost(same, different, x) == Mistakes(same, different, x) {
      CostIsMistakes(same, different, x);
    }
    hide Mistakes;
    var candidates := Candidates(same + different);
    CandidatesIncreasing(same + different);
    hide Cost, Candidates;
    t := candidates[0];
    var least := Cost(same, different, t);
    ghost var at := 0;
    for i := 1 to |candidates|
      invariant 0 <= at < i && t == candidates[at] && least == Cost(same, different, t)
      invariant forall j :: 0 <= j < i ==> least <= Cost(same, different, candidates[j])
      invariant forall j :: 0 <= j < i && Cost(same, different, candidates[j]) == least ==> t <= candidates[j]
    {
      var cost := Cost(same, different, candidates[i]);
      if cost < least {
        t, least, at := candidates[i], cost, i;
      }
    }
    forall u | u in same + different
      ensures least <= Cost(same, different, u) && (Cost(same, different, u) == least ==> t <= u)
    {
      var j :| 0 <= j < |candidates| && candidates[j] == u;
    }
    if same != [] {
      forall x: real ensures Cost(same, different, t) <= Cost(same, different, x) {
        var u := AsGood(same, different, x);
        assert u in candidates;
      }
    }
  }

  /** No value lies in `[x, c)`. */
  ghost predicate Clear(values: seq<real>, x: real, c: real) { forall v :: v in values ==> v < x || v >= c }

  lemma {:induction false} ClearCounts(values: seq<real>, x: real, c: real)
    requires x <= c && Clear(values, x, c)
    ensures CountFrom(values, x) == CountFrom(values, c) && CountBelow(values, x) == CountBelow(values, c)
  {
    if values == [] {
    } else {
      assert values[0] in values && forall v :: v in values[1..] ==> v in values;
      ClearCounts(values[1..], x, c);
    }
  }

  /** The next value at or above `x`, if any. */
  lemma {:induction false} NextUp(values: seq<real>, x: real) returns (found: bool, c: real)
    ensures found ==> c in values && x <= c && Clear(values, x, c)
    ensures !found ==> forall v :: v in values ==> v < x
  {
    if values == [] {
      found, c := false, x;
    } else {
      assert forall v :: v in values <==> v == values[0] || v in values[1..];
      found, c := NextUp(values[1..], x);
      if values[0] >= x && (!found || values[0] < c) {
        found, c := true, values[0];
      }
    }
  }

  lemma {:induction false} AllFrom(values: seq<real>, t: real)
    requires forall v :: v in values ==> v >= t
    ensures CountFrom(values, t) == |values| && CountBelow(values, t) == 0
  {
    if values == [] {
    } else {
      assert values[0] in values && forall v :: v in values[1..] ==> v in values;
      AllFrom(values[1..], t);
    }
  }

  lemma {:induction false} AllBelow(values: seq<real>, t: real)
    requires forall v :: v in values ==> v < t
    ensures CountFrom(values, t) == 0 && CountBelow(values, t) == |values|
  {
    if values == [] {
    } else {
      assert values[0] in values && forall v :: v in values[1..] ==> v in values;
      AllBelow(values[1..], t);
    }
  }

  lemma FullRate(n: nat)
    requires n > 0
    ensures Rate(n, n) == 1.0 && Rate(0, n) == 0.0
  {
  }

  /** Some observed score does as well as any threshold `x`: the next score up from it, or, past all
      of them, the lowest, which accepts everyone where `x` rejects everyone. */
  lemma AsGood(same: seq<real>, different: seq<real>, x: real) returns (u: real)
    requires same != []
    ensures u in same + different && Cost(same, different, u) <= Cost(same, different, x)
  {
    var all := same + different;
    InConcat(same, different);
    var found, c := NextUp(all, x);
    if found {
      u := c;
      ClearCounts(same, x, c);
      ClearCounts(different, x, c);
    } else {
      u := Lowest(all);
      AllFrom(same, u);
      AllFrom(different, u);
      AllBelow(same, x);
      AllBelow(different, x);
      FullRate(|same|);
      if different != [] {
        FullRate(|different|);
      }
    }
  }

  lemma {:induction false} Lowest(values: seq<real>) returns (c: real)
    requires values != []
    ensures c in values && forall v :: v in values ==> v >= c
  {
    assert forall v :: v in values <==> v == values[0] || v in values[1..];
    if |values| == 1 {
      c := values[0];
    } else {
      c := Lowest(values[1..]);
      if values[0] < c {
        c := values[0];
      }
    }
  }

  lemma CostsAreMistakes(different: seq<real>)
    ensures forall x: real :: Cost([], different, x) == Mistakes([], different, x)
  {
    forall x: real ensures Cost([], different, x) == Mistakes([], different, x) {
      CostIsMistakes([], different, x);
    }
  }

  /** Without a same-speaker score it does not hold: above all scores nobody is accepted, and every
      candidate accepts someone. That is why the source asks for scores of both kinds first. */
  lemma WithoutSameScores(different: seq<real>, t: real) returns (x: real)
    requires t in different
    ensures Mistakes([], different, x) < Mistakes([], different, t)
  {
    CostsAreMistakes(different);
    hide Mistakes;
    x := Highest(different);
    x := x + 1.0;
    AllBelow(different, x);
    Accepts(different, t);
  }

  lemma {:induction false} Highest(values: seq<real>) returns (c: real)
    requires values != []
    ensures forall v :: v in values ==> v <= c
  {
    assert forall v :: v in values <==> v == values[0] || v in values[1..];
    if |values| == 1 {
      c := values[0];
    } else {
      c := Highest(values[1..]);
      if values[0] > c {
        c := values[0];
      }
    }
  }

  lemma {:induction false} Accepts(values: seq<real>, t: real)
    requires t in values
    ensures CountFrom(values, t) > 0
  {
    if values[0] == t {
    } else {
      Accepts(values[1..], t);
    }
  }

  // ---- clips -----------------------------------------------------------------------------

  datatype Turn = Turn(start: int, end: int)

  /** Back-to-back clips from `start` to the turn's end. */
  function Clips(start: int, end: int, clip: int, least: int): seq<Turn>
    requires clip > 0 && least > 0
    decreases end - start
  {
    if end - start < least then []
    else
      var next := if start + clip < end then start + clip else end;
      [Turn(start, next)] + Clips(next, end, clip, least)
  }

  function AllClips(turns: seq<Turn>, clip: int, least: int): seq<Turn>
    requires clip > 0 && least > 0
  {
    if turns == [] then []
    else
      var last := turns[|turns| - 1];
      AllClips(turns[..|turns| - 1], clip, least) + Clips(last.start, last.end, clip, least)
  }

  /** `_windows`, with a clip length and a least length that are positive: with others its loop can
      go on forever. */
  method Windows(turns: seq<Turn>, clip: int, least: int) returns (out: seq<Turn>)
    requires clip > 0 && least > 0
    ensures out == AllClips(turns, clip, least)
  {
    out := [];
    for i := 0 to |turns|
      invariant out == AllClips(turns[..i], clip, least)
    {
      assert turns[..i + 1][..i] == turns[..i];
      var t := turns[i];
      ghost var before := out;
      var start := t.start;
      while t.end - start >= least
        invariant before + Clips(t.start, t.end, clip, least) == out + Clips(start, t.end, clip, least)
        decreases t.end - start
      {
        var end := if start + clip < t.end then start + clip else t.end;
        out := out + [Turn(start, end)];
        start := end;
      }
    }
    assert turns[..|turns|] == turns;
  }

  /** The clips follow one another without a gap from the start of the turn, all but the last of the
      full length and the last of at least the least; what is left over is shorter than that. */
  lemma {:induction false} ClipsCoverTurn(start: int, end: int, clip: int, least: int)
    requires clip > 0 && least > 0
    ensures var c := Clips(start, end, clip, least);
      && (forall i :: 0 <= i < |c| ==> c[i].start == (if i == 0 then start else c[i - 1].end) && c[i].end <= end)
      && (forall i :: 0 <= i < |c| - 1 ==> c[i].end - c[i].start == clip)
      && (c != [] ==> var last := c[|c| - 1];
           (if clip < least then clip else least) <= last.end - last.start <= clip && end - last.end < least)
      && (c == [] ==> end - start < least)
    decreases end - start
  {
    if end - start < least {
    } else {
      var next := if start + clip < end then start + clip else end;
      ClipsCoverTurn(next, end, clip, least);
    }
  }
}
