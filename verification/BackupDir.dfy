/** The backup directory and the job that thins it, as the source does it: one file at a time, any
    of which may refuse to go. */
module BackupDir {
  import opened Retention

  /** A dump, its manifest, and the file a dump is written to before it stands. */
  datatype Path = Dump(stamp: Stamp) | Manifest(stamp: Stamp) | Part(stamp: Stamp)

  // ---- one run of the job ----------------------------------------------------------------

  datatype Files = Files(dumps: set<Stamp>, manifests: set<Stamp>)

  /** Dumps without a manifest. */
  function Halves(f: Files): set<Stamp> { f.dumps - f.manifests }

  /** What of a run's files stands: nothing new, the dump, or the dump and its manifest. */
  datatype Stage = Neither | DumpOnly | Both

  /** How a run goes: to its end; or it raises, and what of it stands is to be cleaned up; or it
      stops as it is, the process being gone or, with both in place, the success not noted. */
  datatype Fate = Completes | Raises(at: Stage) | Stops(at: Stage)

  function Stand(f: Files, x: Stamp, at: Stage): Files {
    Files(if at.Neither? then f.dumps else f.dumps + {x}, if at.Both? then f.manifests + {x} else f.manifests)
  }

  /** The cleanup gets as far as the dump, past the file it was written to. */
  predicate TakesDump(x: Stamp, stuck: set<Path>) { Part(x) !in stuck && Dump(x) !in stuck }

  /** The files after a run that does not come to its end. */
  function Broken(f: Files, x: Stamp, fate: Fate, stuck: set<Path>): Files
    requires !fate.Completes?
  {
    var g := Stand(f, x, fate.at);
    if fate.Stops? || !TakesDump(x, stuck) then g
    else Files(g.dumps - {x}, if Manifest(x) in stuck then g.manifests else g.manifests - {x})
  }

  /** Such a run leaves a dump without its manifest exactly where it ends between the two and the dump
      is not taken away again: the process dies there, or something raises there and the cleanup
      itself raises at the dump or before it. */
  lemma HalfExactly(f: Files, x: Stamp, fate: Fate, stuck: set<Path>)
    requires !fate.Completes?
    ensures x in Halves(Broken(f, x, fate, stuck)) && x !in Halves(f) <==>
      fate.at.DumpOnly? && (fate.Stops? || !TakesDump(x, stuck)) && x !in f.dumps && x !in f.manifests
    ensures forall y :: y != x ==> (y in Halves(Broken(f, x, fate, stuck)) <==> y in Halves(f))
  {
  }

  /** A run that raises and can clean up leaves nothing of its stamp. */
  lemma CleanedUp(f: Files, x: Stamp, at: Stage, stuck: set<Path>)
    requires Part(x) !in stuck && Dump(x) !in stuck && Manifest(x) !in stuck
    ensures var g := Broken(f, x, Raises(at), stuck); x !in g.dumps && x !in g.manifests
  {
  }

  ghost predicate Newest(stamps: seq<Stamp>) {
    forall i, j :: 0 <= i < j < |stamps| ==> stamps[i].at > stamps[j].at
  }

  function Members(stamps: seq<Stamp>): set<Stamp> { set x | x in stamps }

  /** The groups the stamps fall in. */
  function Groups(stamps: seq<Stamp>, key: Stamp -> Group): set<Group> {
    if stamps == [] then {} else Groups(stamps[..|stamps| - 1], key) + {key(stamps[|stamps| - 1])}
  }

  lemma {:induction false} GroupOf(stamps: seq<Stamp>, key: Stamp -> Group, j: nat)
    requires j < |stamps|
    ensures key(stamps[j]) in Groups(stamps, key)
  {
    if j == |stamps| - 1 {
    } else {
      GroupOf(stamps[..|stamps| - 1], key, j);
    }
  }

  lemma {:induction false} InGroup(stamps: seq<Stamp>, key: Stamp -> Group, k: Group) returns (j: nat)
    requires k in Groups(stamps, key)
    ensures j < |stamps| && key(stamps[j]) == k
  {
    if key(stamps[|stamps| - 1]) == k {
      j := |stamps| - 1;
    } else {
      j := InGroup(stamps[..|stamps| - 1], key, k);
    }
  }

  /** `sorted(…, reverse=True)`. */
  method NewestFirst(s: set<Stamp>) returns (stamps: seq<Stamp>)
    ensures Newest(stamps) && Members(stamps) == s
  {
    stamps := [];
    var rest := s;
    while rest != {}
      invariant rest <= s && Newest(stamps) && Members(stamps) == s - rest
      invariant forall x, y :: x in rest && y in stamps ==> x.at < y.at
      decreases rest
    {
      ghost var x: Stamp :| x in rest;
      ghost var last := LastFrom(rest, At, x);
      assert forall y :: y in rest ==> At(y) <= At(last);
      var m :| m in rest && forall y :: y in rest ==> y.at <= m.at;
      assert Members(stamps + [m]) == Members(stamps) + {m};
      assert forall i :: 0 <= i < |stamps| ==> stamps[i] in stamps;
      stamps := stamps + [m];
      rest := rest - {m};
    }
  }

  /** When a new group comes up, the stamps seen are exactly those of later groups. */
  lemma SeenAreLater(stamps: seq<Stamp>, key: Stamp -> Group, i: nat, j: nat)
    requires Newest(stamps) && Monotone(key) && i < |stamps| && j < |stamps|
    requires key(stamps[i]) !in Groups(stamps[..i], key)
    ensures j < i <==> key(stamps[j]).n > key(stamps[i]).n
    ensures j >= i ==> stamps[j].at <= stamps[i].at
  {
    if j < i {
      GroupOf(stamps[..i], key, j);
      assert key(stamps[i]).n <= key(stamps[j]).n;
      assert key(stamps[j]) != key(stamps[i]);
    } else {
      assert key(stamps[j]).n <= key(stamps[i]).n;
    }
  }

  lemma PrefixGroups(stamps: seq<Stamp>, key: Stamp -> Group, i: nat)
    requires Newest(stamps) && Monotone(key) && i < |stamps|
    requires key(stamps[i]) !in Groups(stamps[..i], key)
    ensures Groups(stamps[..i], key) == Later(Members(stamps), key, key(stamps[i]))
    ensures NewestOfGroup(Members(stamps), key, stamps[i])
  {
    forall k | k in Groups(stamps[..i], key) ensures k in Later(Members(stamps), key, key(stamps[i])) {
      var j := InGroup(stamps[..i], key, k);
      SeenAreLater(stamps, key, i, j);
      assert stamps[j] in Members(stamps);
    }
    forall k | k in Later(Members(stamps), key, key(stamps[i])) ensures k in Groups(stamps[..i], key) {
      var y :| y in Members(stamps) && key(y).n > key(stamps[i]).n && key(y) == k;
      var j :| 0 <= j < |stamps| && stamps[j] == y;
      SeenAreLater(stamps, key, i, j);
      GroupOf(stamps[..i], key, j);
    }
    forall y | y in Members(stamps) && key(y) == key(stamps[i]) ensures y.at <= stamps[i].at {
      var j :| 0 <= j < |stamps| && stamps[j] == y;
      SeenAreLater(stamps, key, i, j);
    }
  }

  lemma NextPrefix(stamps: seq<Stamp>, key: Stamp -> Group, i: nat)
    requires i < |stamps|
    ensures Groups(stamps[..i + 1], key) == Groups(stamps[..i], key) + {key(stamps[i])}
    ensures Members(stamps[..i + 1]) == Members(stamps[..i]) + {stamps[i]}
    ensures stamps[i] in Members(stamps)
  {
    assert stamps[..i + 1] == stamps[..i] + [stamps[i]];
    assert stamps[..i + 1][..i] == stamps[..i];
  }

  lemma NotNewest(stamps: seq<Stamp>, key: Stamp -> Group, i: nat, limit: int)
    requires Newest(stamps) && i < |stamps| && key(stamps[i]) in Groups(stamps[..i], key)
    ensures stamps[i] !in NewestPer(Members(stamps), key, limit)
  {
    var j := InGroup(stamps[..i], key, key(stamps[i]));
    assert stamps[j] in Members(stamps) && stamps[j].at > stamps[i].at;
  }

  lemma NewGroup(stamps: seq<Stamp>, key: Stamp -> Group, i: nat, limit: int)
    requires Newest(stamps) && Monotone(key) && i < |stamps| && key(stamps[i]) !in Groups(stamps[..i], key)
    ensures |Groups(stamps[..i], key)| < limit ==> stamps[i] in NewestPer(Members(stamps), key, limit)
    ensures |Groups(stamps[..i], key)| >= limit ==> NewestPer(Members(stamps), key, limit) <= Members(stamps[..i])
  {
    PrefixGroups(stamps, key, i);
    if |Groups(stamps[..i], key)| >= limit {
      NothingBeyond(stamps, key, i, limit);
    }
  }

  /** Once `limit` groups have been seen, nothing further down is kept. */
  lemma LaterOfEarlier(s: set<Stamp>, key: Stamp -> Group, k: Group, early: Group)
    requires early.n <= k.n
    ensures Later(s, key, k) <= Later(s, key, early)
  {
  }

  lemma NothingBeyond(stamps: seq<Stamp>, key: Stamp -> Group, i: nat, limit: int)
    requires Newest(stamps) && Monotone(key) && i < |stamps|
    requires |Later(Members(stamps), key, key(stamps[i]))| >= limit
    ensures NewestPer(Members(stamps), key, limit) <= Members(stamps[..i])
  {
    forall x | x in NewestPer(Members(stamps), key, limit) ensures x in Members(stamps[..i]) {
      var j :| 0 <= j < |stamps| && stamps[j] == x;
      if j >= i {
        assert x.at <= stamps[i].at;
        assert key(x).n <= key(stamps[i]).n;
        LaterOfEarlier(Members(stamps), key, key(stamps[i]), key(x));
        Smaller(Later(Members(stamps), key, key(stamps[i])), Later(Members(stamps), key, key(x)));
      }
      assert stamps[..i][j] == x;
    }
  }

  lemma KeepOneMore(keep: set<Stamp>, all: set<Stamp>, before: set<Stamp>, x: Stamp)
    ensures x in all ==> keep + (all * (before + {x})) == keep + (all * before) + {x}
    ensures x !in all ==> keep + (all * (before + {x})) == keep + (all * before)
  {
  }

  lemma GroupsNext(seen: seq<Group>, groups: set<Group>, k: Group)
    requires |seen| == |groups| && forall g :: g in seen <==> g in groups
    ensures k !in seen ==> |seen + [k]| == |groups + {k}| && forall g :: g in seen + [k] <==> g in groups + {k}
    ensures k in seen ==> groups + {k} == groups
  {
  }

  /** The inner `newest_per`: adds to `keep` the first stamp of each new group, up to `limit`. */
  method AddNewestPer(stamps: seq<Stamp>, key: Stamp -> Group, limit: int, keep: set<Stamp>) returns (kept: set<Stamp>)
    requires Newest(stamps) && Monotone(key)
    ensures kept == keep + NewestPer(Members(stamps), key, limit)
  {
    kept := keep;
    var seen: seq<Group> := [];
    ghost var all := NewestPer(Members(stamps), key, limit);
    for i := 0 to |stamps|
      invariant |seen| == |Groups(stamps[..i], key)|
      invariant forall k :: k in seen <==> k in Groups(stamps[..i], key)
      invariant kept == keep + (all * Members(stamps[..i]))
    {
      var k := key(stamps[i]);
      NextPrefix(stamps, key, i);
      GroupsNext(seen, Groups(stamps[..i], key), k);
      KeepOneMore(keep, all, Members(stamps[..i]), stamps[i]);
      if k !in seen {
        NewGroup(stamps, key, i, limit);
        if |seen| >= limit {
          return;
        }
        seen := seen + [k];
        kept := kept + {stamps[i]};
      } else {
        NotNewest(stamps, key, i, limit);
      }
    }
    assert stamps[..|stamps|] == stamps;
  }

  lemma FirstIsLatest(stamps: seq<Stamp>)
    requires Newest(stamps)
    ensures Latest(Members(stamps)) == if stamps == [] then {} else {stamps[0]}
  {
    if stamps != [] {
      assert stamps[0] in Members(stamps);
      forall y | y in Members(stamps) ensures At(y) <= At(stamps[0]) {
        var j :| 0 <= j < |stamps| && stamps[j] == y;
      }
      OneLast(Members(stamps), stamps[0]);
    }
  }

  class Directory {
    var dumps: set<Stamp>
    var manifests: set<Stamp>

    constructor ()
      ensures dumps == {} && manifests == {}
    {
      dumps, manifests := {}, {};
    }

    /** `prune`. Unlinking a path in `stuck` raises, or the process dies before it, and that ends the call. When it comes to its
        end, exactly the retained stamps are left and each deleted dump took its manifest along; when
        it does not, nothing that was to be kept is gone, and no dump has lost its manifest. */
    method Prune(daily: int, weekly: int, stuck: set<Path>) returns (removed: seq<Path>, ok: bool)
      modifies this
      ensures Retained(old(dumps), daily, weekly) <= dumps <= old(dumps)
      ensures ok ==> dumps == Retained(old(dumps), daily, weekly)
      ensures ok ==> manifests == old(manifests) - (old(dumps) - dumps)
      ensures old(manifests) - (old(dumps) - dumps) <= manifests <= old(manifests)
      ensures !ok ==> stuck != {}
      ensures forall x :: Dump(x) in removed <==> x in old(dumps) - dumps
      ensures forall x :: Manifest(x) in removed <==> x in old(manifests) - manifests
    {
      Clocks();
      var stamps := NewestFirst(dumps);
      FirstIsLatest(stamps);
      var keep: set<Stamp> := if stamps == [] then {} else {stamps[0]};
      keep := AddNewestPer(stamps, Day, daily, keep);
      keep := AddNewestPer(stamps, Week, weekly, keep);
      assert keep == Retained(dumps, daily, weekly);
      RetainedIsSubset(dumps, daily, weekly);
      removed, ok := DeleteBut(stamps, keep, stuck);
    }

    /** The deleting half of `prune`: every stamp not to be kept, its dump and then its manifest. */
    method DeleteBut(stamps: seq<Stamp>, keep: set<Stamp>, stuck: set<Path>) returns (removed: seq<Path>, ok: bool)
      requires Members(stamps) == dumps
      modifies this
      ensures old(dumps) * keep <= dumps <= old(dumps)
      ensures ok ==> dumps == old(dumps) * keep
      ensures ok ==> manifests == old(manifests) - (old(dumps) - dumps)
      ensures old(manifests) - (old(dumps) - dumps) <= manifests <= old(manifests)
      ensures !ok ==> stuck != {}
      ensures forall x :: Dump(x) in removed <==> x in old(dumps) - dumps
      ensures forall x :: Manifest(x) in removed <==> x in old(manifests) - manifests
    {
      removed, ok := [], true;
      for i := 0 to |stamps|
        invariant dumps == old(dumps) - (Members(stamps[..i]) - keep)
        invariant manifests == old(manifests) - (Members(stamps[..i]) - keep)
        invariant forall x :: Dump(x) in removed <==> x in old(dumps) - dumps
        invariant forall x :: Manifest(x) in removed <==> x in old(manifests) - manifests
      {
        var stamp := stamps[i];
        NextPrefix(stamps, Day, i);
        if stamp !in keep {
          if stamp in dumps {
            if Dump(stamp) in stuck {
              return removed, false;
            }
            dumps := dumps - {stamp};
            removed := removed + [Dump(stamp)];
          }
          if stamp in manifests {
            if Manifest(stamp) in stuck {
              return removed, false;
            }
            manifests := manifests - {stamp};
            removed := removed + [Manifest(stamp)];
          }
        }
      }
      assert stamps[..|stamps|] == stamps;
    }

    function Value(): Files
      reads this
    {
      Files(dumps, manifests)
    }

    /** What `run_backup` does once something raised: the three files go, in order, up to one that
        cannot go. A file that is not there does not count, but trying to unlink it can raise too. */
    method CleanUp(stamp: Stamp, stuck: set<Path>)
      modifies this
      ensures dumps == if TakesDump(stamp, stuck) then old(dumps) - {stamp} else old(dumps)
      ensures manifests ==
        if TakesDump(stamp, stuck) && Manifest(stamp) !in stuck then old(manifests) - {stamp} else old(manifests)
    {
      if Part(stamp) in stuck || Dump(stamp) in stuck {
        return;
      }
      dumps := dumps - {stamp};
      if Manifest(stamp) in stuck {
        return;
      }
      manifests := manifests - {stamp};
    }

    /** `run_backup`: the new dump, then its manifest, and then old ones go. */
    method Backup(stamp: Stamp, fate: Fate, daily: int, weekly: int, stuck: set<Path>) returns (removed: seq<Path>, ok: bool)
      modifies this
      ensures RunOk(old(dumps), Run(stamp, fate, stuck, ok, dumps), daily, weekly)
      ensures !fate.Completes? ==> Value() == Broken(old(Value()), stamp, fate, stuck)
      ensures fate.Completes? ==> Halves(Value()) == (Halves(old(Value())) - {stamp}) * dumps
      ensures ok && old(dumps) == old(manifests) ==> dumps == manifests
    {
      removed, ok := [], false;
      RetainedIsSubset(dumps + {stamp}, daily, weekly);
      if fate.Completes? || !fate.at.Neither? {
        dumps := dumps + {stamp};
      }
      if fate.Completes? || fate.at.Both? {
        manifests := manifests + {stamp};
      }
      if fate.Raises? {
        CleanUp(stamp, stuck);
      }
      if fate.Completes? {
        removed, ok := Prune(daily, weekly, stuck);
      }
    }
  }

  // ---- every run -------------------------------------------------------------------------

  /** One run of the job: its stamp, how it went, what could not be unlinked, whether its prune came to
      an end, and the stamps left. */
  datatype Run = Run(stamp: Stamp, fate: Fate, stuck: set<Path>, pruned: bool, left: set<Stamp>)

  /** The cleanup takes the stamp's dump away, the run's own or an older one. */
  predicate Cleans(r: Run) { r.fate.Raises? && TakesDump(r.stamp, r.stuck) }

  /** The run's dump comes to stand and stays. */
  predicate Lands(r: Run) { r.fate.Completes? || (!r.fate.at.Neither? && !Cleans(r)) }

  predicate RunOk(present: set<Stamp>, r: Run, daily: int, weekly: int) {
    if r.fate.Completes? then NightOk(present, Night(r.stamp, r.pruned, r.left), daily, weekly)
    else
      !r.pruned && r.left == if Cleans(r) then present - {r.stamp} else if Lands(r) then present + {r.stamp} else present
  }

  predicate RunsOk(present: set<Stamp>, runs: seq<Run>, daily: int, weekly: int)
    decreases |runs|
  {
    runs == [] || (RunOk(present, runs[0], daily, weekly) && RunsOk(runs[0].left, runs[1..], daily, weekly))
  }

  function LeftBy(present: set<Stamp>, runs: seq<Run>): set<Stamp> {
    if runs == [] then present else runs[|runs| - 1].left
  }

  /** With the run's dump, if it landed one. */
  function AndLanded(made: set<Stamp>, r: Run): set<Stamp> { if Lands(r) then made + {r.stamp} else made }

  /** All dumps that ever came to stand and were not cleaned up by their own run. */
  function Landed(made: set<Stamp>, runs: seq<Run>): set<Stamp>
    decreases |runs|
  {
    if runs == [] then made else Landed(AndLanded(made, runs[0]), runs[1..])
  }

  /** The run fails under the stamp of a backup that is there and to be kept, and cleans that up. */
  predicate TakesKept(present: set<Stamp>, r: Run, daily: int, weekly: int) {
    Cleans(r) && r.stamp in Retained(present, daily, weekly)
  }

  predicate NoneTaken(present: set<Stamp>, runs: seq<Run>, daily: int, weekly: int)
    decreases |runs|
  {
    runs == [] || (!TakesKept(present, runs[0], daily, weekly) && NoneTaken(runs[0].left, runs[1..], daily, weekly))
  }

  /** At every moment all is there that one prune of the whole history would keep. */
  predicate AlwaysKept(made: set<Stamp>, present: set<Stamp>, runs: seq<Run>, daily: int, weekly: int)
    decreases |runs|
  {
    Retained(made, daily, weekly) <= present &&
    (runs == [] || AlwaysKept(AndLanded(made, runs[0]), runs[0].left, runs[1..], daily, weekly))
  }

  lemma OneRun(made: set<Stamp>, present: set<Stamp>, r: Run, daily: int, weekly: int)
    requires Retained(made, daily, weekly) <= present <= made && RunOk(present, r, daily, weekly)
    ensures r.left <= AndLanded(made, r)
    ensures Retained(AndLanded(made, r), daily, weekly) <= r.left <==> !TakesKept(present, r, daily, weekly)
    ensures r.pruned ==> r.left == Retained(AndLanded(made, r), daily, weekly)
  {
    hide Retained, TakesDump;
    if Lands(r) {
      LandsAsNight(present, r, daily, weekly);
      OneNight(made, present, Night(r.stamp, r.pruned, r.left), daily, weekly);
    } else {
      RetainedSandwich(made, present, daily, weekly);
    }
  }

  lemma LandsAsNight(present: set<Stamp>, r: Run, daily: int, weekly: int)
    requires Lands(r) && RunOk(present, r, daily, weekly)
    ensures NightOk(present, Night(r.stamp, r.pruned, r.left), daily, weekly)
  {
    RetainedIsSubset(present + {r.stamp}, daily, weekly);
    hide Retained;
  }

  /** Over any runs of the job, whatever their stamps and wherever they raise, die or fail to unlink:
      all is always there that one prune of every backup ever landed would keep, and exactly that
      after a complete prune, exactly if no run fails under the stamp of a backup then to be kept and
      cleans that backup up. */
  lemma {:induction false} KeptExactly(made: set<Stamp>, present: set<Stamp>, runs: seq<Run>, daily: int, weekly: int)
    requires Retained(made, daily, weekly) <= present <= made && RunsOk(present, runs, daily, weekly)
    ensures AlwaysKept(made, present, runs, daily, weekly) <==> NoneTaken(present, runs, daily, weekly)
    ensures NoneTaken(present, runs, daily, weekly) ==>
      && Retained(Landed(made, runs), daily, weekly) <= LeftBy(present, runs) <= Landed(made, runs)
      && (runs != [] && runs[|runs| - 1].pruned ==> LeftBy(present, runs) == Retained(Landed(made, runs), daily, weekly))
    decreases |runs|
  {
    hide Retained, RunOk, TakesKept, AndLanded;
    if runs == [] {
      assert Landed(made, runs) == made;
    } else {
      var r := runs[0];
      OneRun(made, present, r, daily, weekly);
      if !TakesKept(present, r, daily, weekly) {
        KeptExactly(AndLanded(made, r), r.left, runs[1..], daily, weekly);
        assert LeftBy(present, runs) == LeftBy(r.left, runs[1..]);
      }
    }
  }

  /** And that can happen: two runs in the same second, the second of which fails at once. It cleans up
      the backup the first one made, the only one there was. */
  lemma SecondRunTakesFirst(x: Stamp, daily: int, weekly: int) returns (runs: seq<Run>)
    ensures RunsOk({}, runs, daily, weekly) && |runs| == 2 && runs[0].pruned && LeftBy({}, runs[..1]) == {x}
    ensures LeftBy({}, runs) == {} && !NoneTaken({}, runs, daily, weekly)
  {
    runs := [Run(x, Completes, {}, true, {x}), Run(x, Raises(Neither), {}, false, {})];
    OnlyOneKept(x, daily, weekly);
    hide Retained;
    var again := runs[1];
    assert {} + {x} == {x};
    assert RunOk({}, runs[0], daily, weekly);
    assert runs[1..] == [again] && [again][1..] == [] && runs[..1] == [runs[0]];
    assert RunOk({x}, again, daily, weekly) && TakesKept({x}, again, daily, weekly);
    assert RunsOk({}, [], daily, weekly);
    assert RunsOk({x}, [again], daily, weekly);
    assert !NoneTaken({x}, [again], daily, weekly);
  }

  lemma OnlyOneKept(x: Stamp, daily: int, weekly: int)
    ensures Retained({x}, daily, weekly) == {x}
  {
    assert IsLast({x}, At, x) && x in Latest({x});
    RetainedIsSubset({x}, daily, weekly);
  }
}
