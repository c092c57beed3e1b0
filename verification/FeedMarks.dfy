/** Which findings are called new (`markNew` in web/src/feed.ts), over every call that recorded
    arrivals before. */
module FeedMarks {
  import opened Options
  import opened Feed

  predicate IsNew(arrivals: map<string, Arrival>, looked: int, key: string) {
    key in arrivals && !arrivals[key].initial && arrivals[key].wall > looked
  }

  predicate Marked(e: Entry, arrivals: map<string, Arrival>, looked: int) {
    e.InsightEntry? && IsNew(arrivals, looked, e.insight.key)
  }

  ghost predicate Topmost(feed: seq<Entry>, arrivals: map<string, Arrival>, looked: int, i: int) {
    0 <= i < |feed| && Marked(feed[i], arrivals, looked) && forall j :: 0 <= j < i ==> !Marked(feed[j], arrivals, looked)
  }

  /** `markNew`: the new keys, each once however often it is in the feed, and the topmost. */
  method MarkNew(feed: seq<Entry>, arrivals: map<string, Arrival>, looked: int)
    returns (count: nat, firstNewKey: Option<string>, newKeys: set<string>)
    ensures count == |newKeys|
    ensures forall k :: k in newKeys <==> exists i :: 0 <= i < |feed| && Marked(feed[i], arrivals, looked) && feed[i].insight.key == k
    ensures firstNewKey.None? <==> newKeys == {}
    ensures firstNewKey.Some? ==> exists i :: Topmost(feed, arrivals, looked, i) && feed[i].insight.key == firstNewKey.value
  {
    newKeys, firstNewKey := {}, None;
    for n := 0 to |feed|
      invariant forall k :: k in newKeys <==> exists i :: 0 <= i < n && Marked(feed[i], arrivals, looked) && feed[i].insight.key == k
      invariant firstNewKey.None? ==> newKeys == {} && forall j :: 0 <= j < n ==> !Marked(feed[j], arrivals, looked)
      invariant firstNewKey.Some? ==> firstNewKey.value in newKeys
      invariant firstNewKey.Some? ==> exists i :: Topmost(feed, arrivals, looked, i) && feed[i].insight.key == firstNewKey.value
    {
      var e := feed[n];
      if e.InsightEntry? && e.insight.key in arrivals {
        var a := arrivals[e.insight.key];
        if !a.initial && a.wall > looked {
          newKeys := newKeys + {e.insight.key};
          if firstNewKey.None? {
            firstNewKey := Some(e.insight.key);
            assert Topmost(feed, arrivals, looked, n);
          }
        }
      }
    }
    count := |newKeys|;
  }

  // ---- over every call -------------------------------------------------------------------

  /** One call of `trackArrivals`: the keys then present, and the record made of new ones. */
  datatype Call = Call(keys: seq<string>, now: Arrival)

  function Tracked(calls: seq<Call>): map<string, Arrival> {
    if calls == [] then map[]
    else Arrived(Tracked(calls[..|calls| - 1]), calls[|calls| - 1].keys, calls[|calls| - 1].now)
  }

  /** The call in which a key first appears. */
  ghost predicate FirstIn(calls: seq<Call>, key: string, i: int) {
    0 <= i < |calls| && key in calls[i].keys && forall j :: 0 <= j < i ==> key !in calls[j].keys
  }

  /** A key's record is that of the call it first appeared in, whatever came after. */
  lemma {:induction false} RecordIsFirst(calls: seq<Call>, key: string)
    ensures key in Tracked(calls) <==> exists i :: FirstIn(calls, key, i)
    ensures forall i :: FirstIn(calls, key, i) ==> Tracked(calls)[key] == calls[i].now
  {
    if calls == [] {
    } else {
      var init, last := calls[..|calls| - 1], calls[|calls| - 1];
      assert calls == init + [last];
      RecordIsFirst(init, key);
      forall i ensures i < |init| ==> (FirstIn(calls, key, i) <==> FirstIn(init, key, i)) {
      }
      forall j: nat | j < |init| && key in init[j].keys ensures exists i :: FirstIn(init, key, i) {
        var i := Earliest(init, key, j);
      }
      if i :| FirstIn(init, key, i) {
        assert FirstIn(calls, key, i);
      } else {
        assert key in last.keys ==> FirstIn(calls, key, |init|);
      }
    }
  }

  lemma {:induction false} Earliest(calls: seq<Call>, key: string, j: nat) returns (i: nat)
    requires j < |calls| && key in calls[j].keys
    ensures FirstIn(calls, key, i)
    decreases j
  {
    if k: nat :| k < j && key in calls[k].keys {
      i := Earliest(calls, key, k);
    } else {
      i := j;
    }
  }

  /** A finding is called new exactly if it first appeared after the first load and after the reader
      last looked: it stays new until then, and looking now makes nothing new. */
  lemma NewIsFirstSeenLate(calls: seq<Call>, looked: int, key: string)
    ensures IsNew(Tracked(calls), looked, key) <==>
      exists i :: FirstIn(calls, key, i) && !calls[i].now.initial && calls[i].now.wall > looked
    ensures (forall c :: c in calls ==> c.now.wall <= looked) ==> !IsNew(Tracked(calls), looked, key)
  {
    RecordIsFirst(calls, key);
  }
}
