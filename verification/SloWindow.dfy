/** The samples an SLO is judged on: a bounded deque with old samples dropped from its front, and a
    nearest-rank quantile over what is left (server/src/jarvis_live/slo.py). Times and values are
    whole milliseconds. */
module SloWindow {
  import opened Sorting

  datatype Sample = Sample(at: int, value: int)

  const MAXLEN := 4096

  /** What a deque of the maximal length keeps of everything appended to it. */
  function Last(h: seq<Sample>): seq<Sample> { if |h| <= MAXLEN then h else h[|h| - MAXLEN..] }

  function Append(q: seq<Sample>, x: Sample): seq<Sample> { Last(q + [x]) }

  function DropOld(q: seq<Sample>, from: int): seq<Sample> {
    if q != [] && q[0].at < from then DropOld(q[1..], from) else q
  }

  method PopOld(q: seq<Sample>, from: int) returns (r: seq<Sample>)
    ensures r == DropOld(q, from)
  {
    r := q;
    while r != [] && r[0].at < from
      invariant DropOld(r, from) == DropOld(q, from)
      decreases |r|
    {
      r := r[1..];
    }
  }

  function Recent(s: seq<Sample>, from: int): (r: seq<Sample>)
    ensures forall x :: x in r <==> x in s && x.at >= from
  {
    if s == [] then []
    else (if s[0].at >= from then [s[0]] else []) + Recent(s[1..], from)
  }

  ghost predicate InOrder(h: seq<Sample>) { forall i, j :: 0 <= i < j < |h| ==> h[i].at <= h[j].at }

  /** `q` is what is left of `h` in the deque; what was dropped too early for the bound was older
      than `from`. */
  ghost predicate Kept(h: seq<Sample>, q: seq<Sample>, from: int) {
    var all := Last(h);
    && |q| <= |all| && q == all[|all| - |q|..]
    && forall i :: 0 <= i < |all| - |q| ==> all[i].at < from
  }

  /** A suffix that grows with what it is a suffix of; `d` is dropped from the front of that. */
  lemma SuffixGrows(all: seq<Sample>, q: seq<Sample>, x: Sample, d: nat)
    requires |q| + d <= |all| && q == all[|all| - |q|..]
    ensures q + [x] == (all[d..] + [x])[|all| - d - |q|..]
    ensures forall i :: 0 <= i < |all| - d - |q| ==> (all[d..] + [x])[i] == all[d + i]
  {
  }

  lemma LastNext(h: seq<Sample>, x: Sample)
    ensures Last(h + [x]) == Last(h)[if |Last(h)| < MAXLEN then 0 else 1..] + [x] && |Last(h)| <= MAXLEN
  {
  }

  lemma AppendKept(h: seq<Sample>, q: seq<Sample>, from: int, x: Sample)
    requires Kept(h, q, from)
    ensures Kept(h + [x], Append(q, x), from)
  {
    LastNext(h, x);
    var all := Last(h);
    if |q| == MAXLEN {
      assert q == all;
      LastNext(q, x);
      LastIsAll(q);
    } else {
      LastIsAll(q + [x]);
      hide Last;
      SuffixGrows(all, q, x, if |all| < MAXLEN then 0 else 1);
    }
  }

  lemma LastIsAll(q: seq<Sample>)
    requires |q| <= MAXLEN
    ensures Last(q) == q
  {
  }

  lemma {:induction false} RecentAll(s: seq<Sample>, from: int)
    requires forall x :: x in s ==> x.at >= from
    ensures Recent(s, from) == s
  {
    if s == [] {
    } else {
      RecentAll(s[1..], from);
    }
  }

  lemma {:induction false} RecentSkips(s: seq<Sample>, k: nat, from: int)
    requires k <= |s| && forall i :: 0 <= i < k ==> s[i].at < from
    ensures Recent(s, from) == Recent(s[k..], from)
  {
    if k == 0 {
      assert s[0..] == s;
    } else {
      RecentSkips(s[1..], k - 1, from);
      assert s[1..][k - 1..] == s[k..];
    }
  }

  lemma {:induction false} DropIsRecent(q: seq<Sample>, from: int)
    requires InOrder(q)
    ensures DropOld(q, from) == Recent(q, from)
  {
    if q == [] {
    } else {
      if q[0].at < from {
        DropIsRecent(q[1..], from);
      } else {
        RecentAll(q, from);
      }
    }
  }

  lemma {:induction false} DropIsSuffix(q: seq<Sample>, from: int) returns (k: nat)
    ensures k <= |q| && DropOld(q, from) == q[k..] && forall i :: 0 <= i < k ==> q[i].at < from
  {
    if q != [] && q[0].at < from {
      var m := DropIsSuffix(q[1..], from);
      k := m + 1;
      assert q[1..][m..] == q[k..];
    } else {
      k := 0;
    }
  }

  /** Dropping from the front leaves exactly the recent ones of the last ones ever appended. */
  lemma DropKept(h: seq<Sample>, q: seq<Sample>, before: int, from: int)
    requires InOrder(h) && Kept(h, q, before) && before <= from
    ensures DropOld(q, from) == Recent(Last(h), from)
    ensures Kept(h, DropOld(q, from), from)
  {
    var all := Last(h);
    AnyDropKept(all, q, from);
  }

  lemma SuffixOfSuffix(all: seq<Sample>, k: nat, d: nat)
    requires k + d <= |all|
    ensures all[k..][d..] == all[k + d..] && |all[k + d..]| == |all| - k - d
  {
  }

  lemma AnyDropKept(all: seq<Sample>, q: seq<Sample>, from: int)
    requires InOrder(all) && |q| <= |all| && q == all[|all| - |q|..]
    requires forall i :: 0 <= i < |all| - |q| ==> all[i].at < from
    ensures var r := DropOld(q, from);
      && r == Recent(all, from)
      && |r| <= |all| && r == all[|all| - |r|..] && forall i :: 0 <= i < |all| - |r| ==> all[i].at < from
  {
    hide DropOld, Recent, InOrder;
    var k := |all| - |q|;
    OrderedSuffix(all, k);
    RecentSkips(all, k, from);
    DropIsRecent(q, from);
    var d := DropIsSuffix(q, from);
    OldInFront(all, k, d, from);
    SuffixOfSuffix(all, k, d);
  }

  lemma OldInFront(all: seq<Sample>, k: nat, d: nat, from: int)
    requires k + d <= |all| && forall i :: 0 <= i < k ==> all[i].at < from
    requires forall i :: 0 <= i < d ==> all[k..][i].at < from
    ensures forall i :: 0 <= i < k + d ==> all[i].at < from
  {
    forall i | 0 <= i < k + d ensures all[i].at < from {
      assert i >= k ==> all[i] == all[k..][i - k];
    }
  }

  lemma OrderedSuffix(all: seq<Sample>, k: nat)
    requires InOrder(all) && k <= |all|
    ensures InOrder(all[k..])
  {
  }

  // ---- the quantile ----------------------------------------------------------------------

  type Percent = x: int | 1 <= x <= 100 witness 50

  function Same(x: int): int { x }

  /** `ceil(q * n)` for `q` in percent. */
  function Rank(p: Percent, n: nat): int { (p * n + 99) / 100 }

  lemma RankInside(p: Percent, n: nat)
    requires n > 0
    ensures 1 <= Rank(p, n) <= n
  {
    assert p * n <= 100 * n;
    assert p * n >= n;
  }

  /** Nearest rank, as the source computes it. */
  function Quantile(values: seq<int>, p: Percent): int
    requires values != []
  {
    RankInside(p, |values|);
    var k := Rank(p, |values|) - 1;
    StableSort(values, Same)[if k > 0 then k else 0]
  }

  function CountAtMost(values: seq<int>, limit: int): nat {
    if values == [] then 0
    else CountAtMost(values[..|values| - 1], limit) + if values[|values| - 1] <= limit then 1 else 0
  }

  lemma {:induction false} CountOfInsert(s: seq<int>, x: int, limit: int)
    ensures CountAtMost(InsertSorted(s, x, Same), limit) == CountAtMost(s, limit) + if x <= limit then 1 else 0
  {
    var r := InsertSorted(s, x, Same);
    if s == [] || s[|s| - 1] <= x {
      assert r[..|r| - 1] == s;
    } else {
      CountOfInsert(s[..|s| - 1], x, limit);
      assert r[..|r| - 1] == InsertSorted(s[..|s| - 1], x, Same);
    }
  }

  lemma {:induction false} CountOfSort(values: seq<int>, limit: int)
    ensures CountAtMost(StableSort(values, Same), limit) == CountAtMost(values, limit)
  {
    if values == [] {
    } else {
      CountOfSort(values[..|values| - 1], limit);
      CountOfInsert(StableSort(values[..|values| - 1], Same), values[|values| - 1], limit);
    }
  }

  /** In a sorted list the values within the limit are the first ones. */
  lemma {:induction false} CountInSorted(s: seq<int>, limit: int, k: nat)
    requires SortedBy(s, Same) && k < |s|
    ensures s[k] <= limit <==> k < CountAtMost(s, limit)
    ensures CountAtMost(s, limit) <= |s|
    decreases |s|
  {
    var init, last := s[..|s| - 1], s[|s| - 1];
    assert Same(s[k]) <= Same(last);
    if init == [] {
    } else {
      CountInSorted(init, limit, if k < |init| then k else |init| - 1);
      assert Same(s[|s| - 2]) <= Same(last);
    }
  }

  /** The quantile is over the limit exactly if fewer values than its rank are within it. */
  lemma QuantileAbove(values: seq<int>, p: Percent, limit: int)
    requires values != []
    ensures Quantile(values, p) > limit <==> CountAtMost(values, limit) < Rank(p, |values|)
  {
    RankInside(p, |values|);
    StableSortSorts(values, Same);
    CountOfSort(values, limit);
    CountInSorted(StableSort(values, Same), limit, Rank(p, |values|) - 1);
  }

  /** Nearest rank: the fewest of `n` that are at least `p` percent of them. */
  lemma RankMeans(p: Percent, n: nat)
    requires n > 0
    ensures 100 * Rank(p, n) >= p * n && 100 * (Rank(p, n) - 1) < p * n
  {
  }
}
