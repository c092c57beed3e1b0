/** Thinning old backups (`prune`, server/src/jarvis_live/backup.py), on sets of stamps. */
module Retention {

  /** A backup's UTC time in seconds. The source sorts the stamps' names, written so that text
      order is time order. */
  datatype Stamp = Stamp(at: int)
  /** A day, or an ISO week. */
  datatype Group = Group(n: int)

  const SECONDS_PER_DAY := 86400

  function Day(s: Stamp): Group { Group(s.at / SECONDS_PER_DAY) }
  /** The ISO year and week as one number: weeks start on Monday, and day 0 was a Thursday. */
  function Week(s: Stamp): Group { Group((s.at / SECONDS_PER_DAY + 3) / 7) }

  function At(s: Stamp): int { s.at }
  function Num(g: Group): int { g.n }

  ghost predicate Monotone(key: Stamp -> Group) { forall a: Stamp, b: Stamp :: a.at <= b.at ==> key(a).n <= key(b).n }

  lemma Clocks()
    ensures Monotone(Day) && Monotone(Week)
  {
  }

  function DayNumber(s: Stamp): int { s.at / 86400 }

  /** Day 0, the first of January 1970, was a Thursday. */
  predicate Monday(day: int) { day % 7 == 4 }

  /** Two stamps are of one week exactly if no Monday begins between them, and of one day exactly if no
      day does. */
  lemma WeeksBeginOnMonday(a: Stamp, b: Stamp)
    requires a.at <= b.at
    ensures Week(a) == Week(b) <==> forall d :: DayNumber(a) < d <= DayNumber(b) ==> !Monday(d)
    ensures Day(a) == Day(b) <==> DayNumber(a) == DayNumber(b)
  {
    var m, n := DayNumber(a), DayNumber(b);
    var monday := m + 7 - (m + 3) % 7;
    assert Monday(monday) && forall d :: m < d < monday ==> !Monday(d);
    assert n < monday <==> (n + 3) / 7 == (m + 3) / 7;
  }

  /** The groups of `s` later than group `k`. */
  function Later(s: set<Stamp>, key: Stamp -> Group, k: Group): set<Group> {
    set x | x in s && key(x).n > k.n :: key(x)
  }

  predicate NewestOfGroup(s: set<Stamp>, key: Stamp -> Group, x: Stamp) {
    x in s && forall y :: y in s && key(y) == key(x) ==> y.at <= x.at
  }

  /** The newest stamp of each of the last `limit` groups. */
  function NewestPer(s: set<Stamp>, key: Stamp -> Group, limit: int): set<Stamp> {
    set x | x in s && NewestOfGroup(s, key, x) && |Later(s, key, key(x))| < limit
  }

  predicate IsLast<T(!new)>(s: set<T>, rank: T -> int, m: T) { m in s && forall y :: y in s ==> rank(y) <= rank(m) }

  function Latest(s: set<Stamp>): set<Stamp> { set x | x in s && IsLast(s, At, x) }

  /** What a prune leaves of the stamps `s`. */
  function Retained(s: set<Stamp>, daily: int, weekly: int): set<Stamp> {
    Latest(s) + NewestPer(s, Day, daily) + NewestPer(s, Week, weekly)
  }

  // ---- sets of groups --------------------------------------------------------------------

  lemma {:induction false} LastFrom<T(!new)>(s: set<T>, rank: T -> int, x: T) returns (m: T)
    requires x in s
    ensures IsLast(s, rank, m)
    decreases |s|
  {
    if y :| y in s && rank(y) > rank(x) {
      assert s == (s - {x}) + {x};
      m := LastFrom(s - {x}, rank, y);
    } else {
      m := x;
    }
  }

  /** Any finite set of groups has, for each smaller size, an upper part of that size. */
  lemma {:induction false} Top(a: set<Group>, n: nat) returns (b: set<Group>)
    requires n <= |a|
    ensures b <= a && |b| == n
    ensures forall x, y :: x in b && y in a && y.n > x.n ==> y in b
  {
    if n == 0 {
      b := {};
    } else {
      var x :| x in a;
      var m := LastFrom(a, Num, x);
      var c := Top(a - {m}, n - 1);
      b := c + {m};
      assert forall y :: y in a ==> Num(y) <= Num(m);
    }
  }

  lemma Smaller<T>(a: set<T>, b: set<T>)
    requires a <= b
    ensures |a| <= |b|
  {
    if a != b {
      var c := b - a;
      assert b == a + c;
    }
  }

  lemma NewestExists(s: set<Stamp>, key: Stamp -> Group, x: Stamp) returns (z: Stamp)
    requires x in s
    ensures NewestOfGroup(s, key, z) && key(z) == key(x)
  {
    var group := set y | y in s && key(y) == key(x);
    z := LastFrom(group, At, x);
    forall y | y in s && key(y) == key(x) ensures y.at <= z.at {
      assert y in group && At(y) <= At(z);
    }
  }

  /** The law behind everything: leaving out stamps that would go anyway changes nothing. */
  lemma NewestPerSandwich(s: set<Stamp>, v: set<Stamp>, key: Stamp -> Group, limit: int)
    requires NewestPer(s, key, limit) <= v <= s
    ensures NewestPer(v, key, limit) == NewestPer(s, key, limit)
  {
    forall x | x in NewestPer(s, key, limit) ensures x in NewestPer(v, key, limit) {
      Smaller(Later(v, key, key(x)), Later(s, key, key(x)));
    }
    forall x | x in NewestPer(v, key, limit) ensures x in NewestPer(s, key, limit) {
      if |Later(s, key, key(x))| >= limit {
        TopSurvive(s, v, key, limit, key(x));
      }
      var z := NewestExists(s, key, x);
      assert z in NewestPer(s, key, limit);
    }
  }

  /** If `limit` groups of `s` are later than `k`, then so many survive in `v`. */
  lemma TopSurvive(s: set<Stamp>, v: set<Stamp>, key: Stamp -> Group, limit: int, k: Group)
    requires NewestPer(s, key, limit) <= v <= s
    requires 0 < limit <= |Later(s, key, k)|
    ensures |Later(v, key, k)| >= limit
  {
    var a := Later(s, key, k);
    var b := Top(a, limit);
    forall g | g in b ensures g in Later(v, key, k) {
      var x :| x in s && key(x) == g && key(x).n > k.n;
      var z := NewestExists(s, key, x);
      assert g !in Later(s, key, g) && Later(s, key, g) <= b - {g};
      Smaller(Later(s, key, g), b - {g});
      assert z in NewestPer(s, key, limit);
    }
    Smaller(b, Later(v, key, k));
  }

  lemma OneLast(s: set<Stamp>, m: Stamp)
    requires IsLast(s, At, m)
    ensures Latest(s) == {m}
  {
    forall x | x in Latest(s) ensures x == m {
      assert At(x) <= At(m) && At(m) <= At(x);
    }
  }

  lemma RetainedIsSubset(s: set<Stamp>, daily: int, weekly: int)
    ensures Retained(s, daily, weekly) <= s
    ensures s != {} ==> Retained(s, daily, weekly) != {}
  {
    if s != {} {
      var x :| x in s;
      var m := LastFrom(s, At, x);
      OneLast(s, m);
    }
  }

  /** Deleting some of what a prune would delete, and pruning later, is pruning at once. */
  lemma RetainedSandwich(s: set<Stamp>, v: set<Stamp>, daily: int, weekly: int)
    requires Retained(s, daily, weekly) <= v <= s
    ensures Retained(v, daily, weekly) == Retained(s, daily, weekly)
  {
    NewestPerSandwich(s, v, Day, daily);
    NewestPerSandwich(s, v, Week, weekly);
    if s != {} {
      var x :| x in s;
      var m := LastFrom(s, At, x);
      OneLast(s, m);
      OneLast(v, m);
    }
  }

  lemma NewestPerUnion(s: set<Stamp>, x: Stamp, key: Stamp -> Group, limit: int)
    ensures NewestPer(s + {x}, key, limit) <= NewestPer(s, key, limit) + {x}
  {
    forall y | y in NewestPer(s + {x}, key, limit) && y != x ensures y in NewestPer(s, key, limit) {
      Smaller(Later(s, key, key(y)), Later(s + {x}, key, key(y)));
    }
  }

  lemma RetainedUnion(s: set<Stamp>, x: Stamp, daily: int, weekly: int)
    ensures Retained(s + {x}, daily, weekly) <= Retained(s, daily, weekly) + {x}
  {
    hide NewestPer, Latest;
    NewestPerUnion(s, x, Day, daily);
    NewestPerUnion(s, x, Week, weekly);
    LatestUnion(s, x);
  }

  lemma LatestUnion(s: set<Stamp>, x: Stamp)
    ensures Latest(s + {x}) <= Latest(s) + {x}
  {
    forall y | y in Latest(s + {x}) && y != x ensures y in Latest(s) {
      assert forall z :: z in s ==> z in s + {x};
    }
  }

  /** Pruning before a backup is made does not change what pruning after it leaves, whatever the
      stamp of the new backup: not even the clock has to move forward. */
  lemma PruneThenBackup(s: set<Stamp>, v: set<Stamp>, x: Stamp, daily: int, weekly: int)
    requires Retained(s, daily, weekly) <= v <= s
    ensures Retained(s + {x}, daily, weekly) <= v + {x} <= s + {x}
    ensures Retained(v + {x}, daily, weekly) == Retained(s + {x}, daily, weekly)
  {
    RetainedUnion(s, x, daily, weekly);
    RetainedSandwich(s + {x}, v + {x}, daily, weekly);
  }

  // ---- every night -----------------------------------------------------------------------

  /** One run of the backup job: the stamp it made, whether its prune came to an end, and the
      stamps left. A prune that fails has deleted some of what it meant to. */
  datatype Night = Night(stamp: Stamp, pruned: bool, left: set<Stamp>)

  predicate NightOk(present: set<Stamp>, n: Night, daily: int, weekly: int) {
    var s := present + {n.stamp};
    Retained(s, daily, weekly) <= n.left <= s && (n.pruned ==> n.left == Retained(s, daily, weekly))
  }

  predicate Nights(present: set<Stamp>, nights: seq<Night>, daily: int, weekly: int)
    decreases |nights|
  {
    nights == [] ||
    (NightOk(present, nights[0], daily, weekly) && Nights(nights[0].left, nights[1..], daily, weekly))
  }

  function Left(present: set<Stamp>, nights: seq<Night>): set<Stamp> {
    if nights == [] then present else nights[|nights| - 1].left
  }

  function Made(made: set<Stamp>, nights: seq<Night>): set<Stamp> {
    made + set n | n in nights :: n.stamp
  }

  lemma MadeFirst(made: set<Stamp>, nights: seq<Night>)
    requires nights != []
    ensures Made(made, nights) == Made(made + {nights[0].stamp}, nights[1..])
    ensures |nights| == 1 ==> Made(made, nights) == made + {nights[0].stamp}
  {
    assert nights == [nights[0]] + nights[1..];
  }

  lemma OneNight(made: set<Stamp>, present: set<Stamp>, n: Night, daily: int, weekly: int)
    requires Retained(made, daily, weekly) <= present <= made && NightOk(present, n, daily, weekly)
    ensures var all := made + {n.stamp};
      Retained(all, daily, weekly) <= n.left <= all && (n.pruned ==> n.left == Retained(all, daily, weekly))
  {
    PruneThenBackup(made, present, n.stamp, daily, weekly);
  }

  /** Thinning as one goes is thinning the whole history at once: after any nights, in whatever
      order their stamps come and wherever prunes broke off, what is left contains all that one
      prune of every backup ever made would keep, and is exactly that after a complete prune. */
  lemma {:induction false} EveryNight(made: set<Stamp>, present: set<Stamp>, nights: seq<Night>, daily: int, weekly: int)
    requires Retained(made, daily, weekly) <= present <= made
    requires Nights(present, nights, daily, weekly)
    ensures Retained(Made(made, nights), daily, weekly) <= Left(present, nights) <= Made(made, nights)
    ensures nights != [] && nights[|nights| - 1].pruned ==>
      Left(present, nights) == Retained(Made(made, nights), daily, weekly)
    decreases |nights|
  {
    hide Retained, NightOk;
    if nights == [] {
      assert Made(made, nights) == made;
    } else {
      hide Made;
      var n := nights[0];
      OneNight(made, present, n, daily, weekly);
      MadeFirst(made, nights);
      EveryNight(made + {n.stamp}, n.left, nights[1..], daily, weekly);
      assert Left(present, nights) == Left(n.left, nights[1..]);
    }
  }

  /** So the newest backup of each of the last days and weeks ever backed up is always there, and
      so is the newest of all. */
  lemma NeverLost(nights: seq<Night>, daily: int, weekly: int)
    requires Nights({}, nights, daily, weekly)
    ensures var made := Made({}, nights);
      && NewestPer(made, Day, daily) <= Left({}, nights)
      && NewestPer(made, Week, weekly) <= Left({}, nights)
      && Latest(made) <= Left({}, nights)
  {
    assert Retained({}, daily, weekly) == {};
    EveryNight({}, {}, nights, daily, weekly);
  }

  /** The groups kept really are the last ones: a group has a stamp kept exactly if fewer than
      `limit` groups with a backup are later; and it is the newest of its group. */
  lemma LastGroups(s: set<Stamp>, key: Stamp -> Group, limit: int, x: Stamp)
    requires x in s
    ensures (exists y :: y in NewestPer(s, key, limit) && key(y) == key(x)) <==>
      |set y | y in s && key(y).n > key(x).n :: key(y)| < limit
    ensures forall y :: y in NewestPer(s, key, limit) && key(y) == key(x) ==> x.at <= y.at
  {
    assert (set y | y in s && key(y).n > key(x).n :: key(y)) == Later(s, key, key(x));
    var z := NewestExists(s, key, x);
    if |Later(s, key, key(x))| < limit {
      assert z in NewestPer(s, key, limit);
    }
  }
}
